/** The daemon side of a login as the source has it: a display whose slots update flags, generation
    counters and timers, an Auth that owns the helper process, and a request object whose signals
    re-enter both. Signals are direct calls to the display that is connected to them. Every slot is
    proved to take the step of the phase machine in DisplaySpec.dfy that its event names; a reply to
    a call of an abandoned attempt takes no step. */
module DisplayDaemon {
  import opened LoginTypes
  import opened SessionReuse
  import opened DisplaySpec
  import opened DisplayFlags
  import Runs = DisplaySafety

  function Without(names: seq<nat>, name: nat): (kept: seq<nat>)
    ensures |kept| <= |names| && name !in kept
  {
    if names == [] then []
    else
      var last := names[|names| - 1];
      Without(names[..|names| - 1], name) + if last == name then [] else [last]
  }

  // ------------------------------------------------------------------ AuthRequest

  class AuthRequest {
    var prompts: seq<Prompt>
    var finished: bool

    constructor ()
      ensures prompts == [] && finished
    {
      prompts := [];
      finished := true;
    }

    /** One REQUEST of the helper is answered at most once, however the signals nest. */
    method SetRequest(display: Display, request: Option<seq<Prompt>>)
      requires display.auth.request == this
      modifies this, display`log, display`owed
      ensures request.None? ==>
        prompts == [] && finished == old(finished)
        && display.log == old(display.log) && display.owed == old(display.owed)
      ensures request.Some? && display.login.fingerprintLogin ==>
        && display.log == old(display.log)
        && display.owed == old(display.owed).(
             promptCancels := old(display.owed).promptCancels + if request.value == [] then 0 else 1)
      ensures request.Some? && !display.login.fingerprintLogin ==>
        && display.owed == old(display.owed)
        && var answers := Answers(request.value, display.auth.state.user, display.login.passPhrase);
           display.log == old(display.log) + if answers.Some? then [SendReply(PromptReply(answers.value))] else []
      decreases if request.Some? then 6 else 2
    {
      prompts := [];
      if request.Some? {
        prompts := request.value;
        finished := false;
      }
      display.SlotRequestChanged();
    }

    method Done(display: Display)
      requires display.auth.request == this
      modifies this, display`log, display`owed
      ensures finished && display.owed == old(display.owed)
      ensures old(finished) ==> display.log == old(display.log) && prompts == old(prompts)
      ensures !old(finished) ==> display.log == old(display.log) + [SendReply(PromptReply(old(prompts)))]
      decreases 4
    {
      if !finished {
        finished := true;
        display.auth.RequestFinished(display);
      }
    }
  }

  // ------------------------------------------------------------------ Auth

  /** The private part of Auth. Terminated helpers deliver nothing more. */
  class Auth {
    const request: AuthRequest
    var state: AuthState

    constructor ()
      ensures fresh(request)
      ensures state == AuthState(false, false, false, false, false, false, "", "")
    {
      request := new AuthRequest();
      state := AuthState(false, false, false, false, false, false, "", "");
    }

    method RequestFinished(display: Display)
      requires display.auth == this
      modifies request, display`log, display`owed
      ensures display.log == old(display.log) + [SendReply(PromptReply(old(request.prompts)))]
      ensures request.finished == old(request.finished) && display.owed == old(display.owed)
      decreases 3
    {
      display.log := display.log + [SendReply(PromptReply(request.prompts))];
      request.SetRequest(display, None);
    }

    method DeferSessionStart()
      modifies this`state
      ensures state == old(state).(deferStart := true)
    {
      state := state.(deferStart := true);
    }

    method ResumeSessionStart(display: Display)
      modifies this`state, display`log
      ensures state == old(state).(deferStart := false, authenticationPending := false)
      ensures display.log == old(display.log) +
        if old(state.authenticationPending) && state.connected then [SendReply(AuthenticatedReply)] else []
    {
      state := state.(deferStart := false);
      if !state.authenticationPending {
        return;
      }
      state := state.(authenticationPending := false);
      if !state.connected {
        return;
      }
      display.log := display.log + [SendReply(AuthenticatedReply)];
    }

    method Start(display: Display)
      requires !state.active
      modifies this`state, display`log
      ensures state
           == old(state).(active := true, connected := true, deferStart := false, authenticationPending := false)
      ensures display.log
           == old(display.log) + [HelperStarted(state.user, state.sessionPath, state.autologin, state.fingerprint)]
    {
      state := state.(deferStart := false, authenticationPending := false, active := true, connected := true);
      display.log := display.log + [HelperStarted(state.user, state.sessionPath, state.autologin, state.fingerprint)];
    }

    /** Terminates the helper and waits for it, so its exit is handled before this returns;
        `how` is the way it happens to die. */
    method Stop(display: Display, how: HelperExit)
      requires display.auth == this && state.connected == state.active
      requires state.active ==> Ending(display.View())
      modifies this, display
      ensures display.View() ==
        if old(state.active) then Killed(old(display.View()))
        else Bereft(old(display.View()))
      decreases if display.frame.started && !display.frame.stopping then 1 else 0, 4
    {
      state := state.(deferStart := false, authenticationPending := false);
      if !state.active {
        return;
      }
      ChildExited(display, how);
    }

    /** The helper process has finished. On the way down that is all; otherwise the display mourns it. */
    method ChildExited(display: Display, how: HelperExit)
      requires display.auth == this && state.active
      requires Inv(display.View()) || Ending(display.View())
      modifies this, display
      ensures old(Ending(display.View())) ==>
        display.View() == Killed(old(display.View()))
      ensures old(Inv(display.View())) ==>
        Inv(display.View()) && Abs(display.View()) == OnHelperExits(Abs(old(display.View())), how)
      decreases if display.frame.started && !display.frame.stopping then 1 else 0, 3
    {
      ghost var f := display.View();
      ghost var told := Emit(Abs(f), [HelperEnded] + Notice(Abs(f).phase, how));
      if Inv(f) {
        Guards(f);
        DeathRefines(f, how);
        BuriedInTwoSteps(Abs(f), how);
      } else {
        DeathOnTheWayDown(f, how);
      }
      hide Inv, Abs, Ending, Bereaved, Mourn, Notice, Bury, Unregistration, Gone, Killed;
      hide Owner, Busy, HelperAlive, Cancellable;
      NoteDeath(display, how);
      display.SlotHelperFinished(how.Status(), told);
    }

    /** What Auth itself does about a helper that has finished; a crash is an error of the process
        first, and reported as such too. */
    method NoteDeath(display: Display, how: HelperExit)
      requires display.auth == this
      modifies this`state, display`log
      ensures display.View() == Gone(old(display.View()), how)
    {
      state := state.(active := false, connected := false);
      display.log := display.log + [HelperEnded];
      if how.Crashed? {
        display.SlotAuthError(how.message, InternalError);
        display.SlotAuthError(how.message, InternalError);
      }
      state := state.(authenticationPending := false, deferStart := false);
    }

    /** The messages on the helper's socket, one after the other. */
    method DataPending(display: Display, messages: seq<HelperMessage>)
      requires display.auth == this && Inv(display.View())
      requires Runs.Feasible(Abs(display.View()), Said(messages))
      modifies this, request, display
      ensures Inv(display.View())
      ensures Abs(display.View()) == Runs.Run(Abs(old(display.View())), Said(messages))
    {
      hide Inv, Step, Enabled, WellFormed;
      var i := 0;
      while i < |messages|
        invariant 0 <= i <= |messages|
        invariant Inv(display.View())
        invariant Runs.Feasible(Abs(display.View()), Said(messages[i..]))
        invariant Runs.Run(Abs(display.View()), Said(messages[i..]))
             == Runs.Run(Abs(old(display.View())), Said(messages))
      {
        assert Said(messages[i..])[1..] == Said(messages[i + 1..]);
        HandleMessage(display, messages[i]);
        i := i + 1;
      }
    }

    method HandleMessage(display: Display, message: HelperMessage)
      requires display.auth == this && Inv(display.View())
      requires Enabled(Abs(display.View()), HelperSays(message))
      modifies this, request, display
      ensures Inv(display.View()) && Abs(display.View()) == Step(Abs(old(display.View())), HelperSays(message))
    {
      hide Inv, Abs, Answers, OnAccepted, OnRefused, OnSessionStatus, OnPromptRequest, WellFormed, Opened;
      ghost var f := display.View();
      Guards(f);
      match message
      case Error(text, kind) =>
        display.SlotAuthError(text, kind);
        RemarkRefines(f, message);
      case Info(text) =>
        display.SlotAuthInfo(text);
        RemarkRefines(f, message);
      case PromptRequest(prompts) =>
        request.SetRequest(display, Some(prompts));
        AnsweredRefines(f, prompts, display.View());
      case Authenticated(who) =>
        HandleAuthenticated(display, who);
      case SessionStatus(ok) =>
        display.log := display.log + [SendReply(SessionStatusReply)];
        display.SlotSessionStarted(ok);
        if ok { SessionOpenRefines(f); } else { SessionFailedRefines(f); }
    }

    method HandleAuthenticated(display: Display, who: string)
      requires display.auth == this && Inv(display.View()) && Abs(display.View()).phase.Proving?
      modifies this, display
      ensures Inv(display.View())
      ensures Abs(display.View()) == if who != "" then OnAccepted(Abs(old(display.View())), who)
          else OnRefused(Abs(old(display.View())))
    {
      ghost var f := display.View();
      assert display.names.sessionName.Some? && state.connected;
      hide Inv, Abs, Fits, WellFormed, PamSaysYes, Welcomed, Replied, Dismissed, OnAccepted, OnRefused;
      if who != "" {
        HandleAccepted(display, who);
        AcceptedRefines(f, who);
      } else {
        display.SlotAuthenticationFinished(false);
        RefusedRefines(f);
      }
    }

    method HandleAccepted(display: Display, who: string)
      requires display.auth == this && display.names.sessionName.Some? && state.connected
      modifies this, display
      ensures var welcomed := Welcomed(PamSaysYes(old(display.View()), who));
        display.View() == if welcomed.auth.deferStart then welcomed else Replied(welcomed)
    {
      state := state.(user := who, authenticationPending := true);
      display.log := display.log + [PamAccepted(display.login.socket)];
      assert display.View() == PamSaysYes(old(display.View()), who);
      hide PamSaysYes, Welcomed;
      display.SlotAuthenticationFinished(true);
      if !state.deferStart {
        ResumeSessionStart(display);
      }
    }
  }

  function Said(messages: seq<HelperMessage>): seq<Event> {
    seq(|messages|, i requires 0 <= i < |messages| => HelperSays(messages[i]))
  }

  // ------------------------------------------------------------------ Display

  class Display {
    const rootful: bool         // the greeter's display server is rootful X11
    const auth: Auth
    var frame: Frame
    var login: LoginState
    var reuse: Reuse
    var names: Names
    var owed: Owed
    // history, which the program does not store
    var ended: bool
    var issued: nat
    var search: Search
    var log: seq<Output>

    /** All fields of this display and its Auth. */
    function View(): Flags
      reads this, auth
    {
      Flags(rootful, frame, login, reuse, names, owed, auth.state, ended, issued, search, log)
    }

    constructor (rootful: bool)
      ensures Inv(View()) && Abs(View()) == Initial(rootful)
      ensures fresh(auth) && fresh(auth.request)
    {
      this.rootful := rootful;
      auth := new Auth();
      frame := Frame(false, false, false, false, {});
      login := LoginState(None, false, false, false, "", false, false);
      reuse := Reuse(None, false, 0, false, 0, false, false);
      names := Names(None, 0, []);
      owed := Owed(multiset{}, map[], {}, 0);
      ended, issued, search, log := false, 0, Listing("", ""), [];
    }

    // ---------- shared by several slots ----------

    method RemoveDisplayManagerSession()
      requires names.registry == [] || (names.sessionName.Some? && names.registry == [names.sessionName.value])
      modifies this`names, this`log
      ensures View() == Unlisted(old(View()))
    {
      if names.sessionName.None? {
        return;
      }
      RemoveSession(names.sessionName.value);
      names := names.(sessionName := None);
    }

    /** DisplayManager::RemoveSession drops every session of that name, telling each time. */
    method RemoveSession(name: nat)
      modifies this`names, this`log
      ensures names == old(names).(registry := Without(old(names.registry), name))
      ensures log == old(log) + seq(|old(names.registry)| - |names.registry|, _ => SessionUnregistered)
    {
      var kept := [];
      var i := 0;
      while i < |names.registry|
        invariant 0 <= i <= |names.registry| && names == old(names)
        invariant kept == Without(names.registry[..i], name)
        invariant log == old(log) + seq(i - |kept|, _ => SessionUnregistered)
      {
        assert names.registry[..i + 1][..i] == names.registry[..i];
        if names.registry[i] == name {
          log := log + [SessionUnregistered];
        } else {
          kept := kept + [names.registry[i]];
        }
        i := i + 1;
      }
      assert names.registry[..i] == names.registry;
      names := names.(registry := kept);
    }

    method FinishLogin(success: bool)
      modifies this`login, this`log, auth`state
      ensures View() == Finished(old(View()), success)
    {
      login := login.(transitionTimer := false);
      if success {
        if login.socket.Some? {
          log := log + [LoginSucceeded(login.socket.value)];
        }
      } else if login.socket.Some? {
        if login.fingerprintLogin && !login.authenticated {
          log := log + [FingerprintFinished(login.socket.value)];
        } else {
          log := log + [LoginFailed(login.socket.value)];
        }
      }
      login := login.(socket := None, fingerprintLogin := false);
      auth.state := auth.state.(fingerprint := false);
    }

    method SlotAuthInfo(message: string)
      modifies this`log
      ensures log == old(log) + if login.socket.Some? && !login.fingerprintLogin
          then [Information(login.socket.value, message)] else []
    {
      if login.socket.None? || login.fingerprintLogin {
        return;
      }
      log := log + [Information(login.socket.value, message)];
    }

    method SlotAuthError(message: string, kind: ErrorKind)
      modifies this`log
      ensures log == old(log) +
        if login.socket.None? then []
        else if !login.fingerprintLogin then [Information(login.socket.value, message)]
        else if kind.AuthenticationError? then [FingerprintRejected(login.socket.value, message)]
        else []
    {
      if login.socket.None? {
        return;
      }
      if login.fingerprintLogin {
        if kind.AuthenticationError? {
          log := log + [FingerprintRejected(login.socket.value, message)];
        }
        return;
      }
      log := log + [Information(login.socket.value, message)];
    }

    // ---------- stopping ----------

    /** Stopping re-enters itself through the helper's exit; the inner calls do nothing. */
    method Stop(how: HelperExit)
      requires Inv(View()) || frame.stopping
      modifies this, auth
      ensures old(frame.stopping) ==> View() == old(View())
      ensures old(Inv(View())) ==> Inv(View()) && Abs(View()) == StopDisplay(Abs(old(View())))
      decreases if frame.started && !frame.stopping then 1 else 0, 0
    {
      if Inv(View()) { Guards(View()); }
      if !frame.started || frame.stopping {
        return;
      }
      ghost var f := View();
      StopRefines(f);
      hide Inv, Abs, StopDisplay;
      AbandonLogin();
      frame := frame.(greeterUp := false);
      hide Retired;
      auth.Stop(this, how);
      frame := frame.(serving := false, started := false, stopping := false);
      ended := true;
      log := log + [DisplayStopped];
    }

    /** The first half of `Stop`. */
    method AbandonLogin()
      requires names.registry == [] || (names.sessionName.Some? && names.registry == [names.sessionName.value])
      modifies this, auth
      ensures View() == Retired(old(View()))
    {
      frame := frame.(stopping := true);
      reuse := reuse.(lookupPending := false, lookupGeneration := reuse.lookupGeneration + 1,
                      activationPending := false, helperFinished := false,
                      activationGeneration := reuse.activationGeneration + 1, activationTimer := false);
      FinishLogin(false);
      RemoveDisplayManagerSession();
    }

    /** `d` is the phase the helper died in. */
    method SlotHelperFinished(status: ExitStatus, ghost d: Daemon)
      requires Ending(View()) || Bereaved(View(), d)
      requires View() == Bereft(View())
      modifies this, auth
      ensures old(Ending(View())) ==> View() == old(View()).(names := old(View()).names.(sessionName := None))
      ensures !old(Ending(View())) ==>
        Inv(View()) && Abs(View()) == Mourn(Emit(d, Unregistration(d.phase)), status)
      decreases if frame.started && !frame.stopping then 1 else 0, 1
    {
      hide Inv, Abs, Bereaved, Mourn;
      ghost var f := View();
      if Bereaved(f, d) { BereavedGuards(f, d); }
      RemoveDisplayManagerSession();
      if login.cancellingFingerprint {
        return;
      }
      if reuse.activationPending {
        reuse := reuse.(helperFinished := true);
        MournWhileActivating(f, d, status);
        return;
      }
      if login.socket.Some? {
        FinishLogin(false);
      }
      if !Ending(f) {
        MournAtRest(f, d, status);
      }
      if status != HelperAuthError {
        Stop(Exited(0));
      }
    }

    /** cancelFingerprintLogin: kills the run, or drops the search that would have started it. */
    method CancelFingerprintLogin(how: HelperExit)
      requires Inv(View()) && Cancellable(Abs(View()).phase)
      modifies this, auth
      ensures Inv(View()) && Abs(View()) == CancelFingerprint(Abs(old(View())))
    {
      ghost var f := View();
      reuse := reuse.(lookupPending := false, lookupGeneration := reuse.lookupGeneration + 1);
      login := login.(cancellingFingerprint := true);
      auth.Stop(this, how);
      login := login.(cancellingFingerprint := false, fingerprintLogin := false);
      auth.state := auth.state.(fingerprint := false);
      login := login.(socket := None);
      CancelRefines(f, View());
    }

    // ---------- prompts ----------

    /** Never answers a prompt of the fingerprint stack, and answers one or two prompts of the others. */
    method SlotRequestChanged()
      requires auth.request.prompts != [] ==> !auth.request.finished
      modifies auth.request, this`log, this`owed
      ensures old(auth.request.prompts) == [] ==>
        unchanged(auth.request) && log == old(log) && owed == old(owed)
      ensures old(auth.request.prompts) != [] && login.fingerprintLogin ==>
        log == old(log) && owed == old(owed).(promptCancels := old(owed).promptCancels + 1)
      ensures old(auth.request.prompts) != [] && !login.fingerprintLogin ==>
        && owed == old(owed)
        && var answers := Answers(old(auth.request.prompts), auth.state.user, login.passPhrase);
           log == old(log) + if answers.Some? then [SendReply(PromptReply(answers.value))] else []
      decreases if auth.request.prompts != [] then 5 else 1
    {
      if login.fingerprintLogin {
        if auth.request.prompts == [] {
          return;
        }
        owed := owed.(promptCancels := owed.promptCancels + 1);
        return;
      }
      var request := auth.request;
      if |request.prompts| == 1 {
        request.prompts := [request.prompts[0].(response := login.passPhrase)];
        request.Done(this);
      } else if |request.prompts| == 2 {
        request.prompts := [request.prompts[0].(response := auth.state.user), request.prompts[1]];
        request.prompts := [request.prompts[0], request.prompts[1].(response := login.passPhrase)];
        request.Done(this);
      }
    }

    method PromptCancelFires(how: HelperExit)
      requires Inv(View()) && owed.promptCancels > 0
      modifies this, auth
      ensures Inv(View()) && Abs(View()) == Step(Abs(old(View())), Event.PromptCancelFires)
    {
      hide Inv, CancelFingerprint;
      CountdownRefines(View());
      owed := owed.(promptCancels := owed.promptCancels - 1);
      Guards(View());
      if !login.fingerprintLogin || login.authenticated {
        return;
      }
      var asker := login.socket;
      CancelFingerprintLogin(how);
      if asker.Some? {
        NotedRefines(View(), [FingerprintFinished(asker.value)]);
        log := log + [FingerprintFinished(asker.value)];
      }
    }

    // ---------- starting an attempt ----------

    method StartAuth(name: string, password: string, session: SessionChoice, canReuse: bool) returns (ok: bool)
      modifies this, auth
      ensures ok == (!old(auth.state.active) && session.Usable())
      ensures ok ==>
        var prepared := Prepared(old(View()), name, password, session);
        View() == if canReuse then Searching(prepared, name, session.xdgType) else Launched(prepared)
      ensures !ok && old(auth.state.active) ==> View() == old(View())
      ensures !ok && !old(auth.state.active) ==>
        View() == old(View()).(login := old(login).(passPhrase := password, authenticated := false))
    {
      if auth.state.active {
        return false;
      }
      login := login.(passPhrase := password, authenticated := false);
      if !session.valid || session.xdgType == "" || session.exec == "" {
        return false;
      }
      PrepareAttempt(name, session);
      assert View() == Prepared(old(View()), name, password, session);
      hide Prepared;
      if canReuse {
        FindReusableSession(name, session.xdgType);
      } else {
        auth.Start(this);
      }
      return true;
    }

    /** The part of startAuth between its checks and the helper. */
    method PrepareAttempt(name: string, session: SessionChoice)
      requires !login.authenticated
      modifies this, auth
      ensures View() == Prepared(old(View()), name, old(login).passPhrase, session)
    {
      reuse := reuse.(sessionId := None, lookupPending := false, lookupGeneration := reuse.lookupGeneration + 1,
                      activationPending := false, helperFinished := false,
                      activationGeneration := reuse.activationGeneration + 1, activationTimer := false);
      names := names.(sessionName := Some(names.nextSessionName), nextSessionName := names.nextSessionName + 1);
      login := login.(sharedX11 := session.x11 && rootful);
      auth.state := auth.state.(user := name, sessionPath := session.exec);
    }

    method FindReusableSession(name: string, requestedType: string)
      modifies this
      ensures View() == Searching(old(View()), name, requestedType)
    {
      reuse := reuse.(lookupGeneration := reuse.lookupGeneration + 1, lookupPending := true);
      owed := owed.(lookupTimers := owed.lookupTimers + {reuse.lookupGeneration});
      owed := owed.(calls := owed.calls + multiset{ListCall(reuse.lookupGeneration, name, requestedType)});
      search := Listing(name, requestedType);
      log := log + [ListSessions];
    }

    // ---------- starting the display ----------

    method StartDisplay(plan: AutologinPlan)
      requires Inv(View()) && Enabled(Abs(View()), Event.StartDisplay(plan))
      modifies this, auth
      ensures Inv(View()) && Abs(View()) == Step(Abs(old(View())), Event.StartDisplay(plan))
    {
      ghost var f := View();
      assert !auth.state.active && (!frame.started ==> !auth.state.autologin);
      hide Inv, Poised, Begin, Abs;
      if frame.started {
        return;
      }
      if !plan.NotRequested? && !rootful {
        frame := frame.(started := true);
        var ok := AttemptAutologin(plan);
        if ok {
          AutologinPoised(f);
          BeginRefines(f.(frame := f.frame.(started := true), auth := f.auth.(autologin := true)),
                       Abs(f).(started := true, autologin := true),
                       None, plan.user, "", plan.session, plan.canReuse);
          return;
        }
        auth.state := auth.state.(autologin := false);
        frame := frame.(started := false);
      }
      log := log + [StartDisplayServer];
      DisplayServerRefines(f, auth.state.autologin, View());
    }

    method AttemptAutologin(plan: AutologinPlan) returns (ok: bool)
      requires !auth.state.active
      modifies this, auth
      ensures ok == (plan.AutologinAs? && plan.session.Usable())
      ensures ok ==>
        var prepared :=
          Prepared(old(View()).(auth := old(auth.state).(autologin := true)), plan.user, "", plan.session);
        View() == if plan.canReuse then Searching(prepared, plan.user, plan.session.xdgType) else Launched(prepared)
      ensures !ok ==>
        View() == old(View()).(auth := old(auth.state).(autologin := auth.state.autologin),
                               login := old(login).(passPhrase := login.passPhrase,
                                                    authenticated := login.authenticated))
    {
      if !plan.AutologinAs? {
        return false;
      }
      auth.state := auth.state.(autologin := true);
      ok := StartAuth(plan.user, "", plan.session, plan.canReuse);
    }

    method HandleAutologinFailure()
      modifies this`frame, this`log, auth`state
      ensures View() == if rootful
        then old(View()).(auth := old(auth.state).(autologin := false), log := old(log) + [GreeterStarted],
                          frame := old(frame).(started := true, serving := true, greeterUp := true))
        else old(View()).(auth := old(auth.state).(autologin := false), log := old(log) + [StartDisplayServer],
                          frame := old(frame).(started := false))
    {
      auth.state := auth.state.(autologin := false);
      if !rootful {
        frame := frame.(started := false);
        log := log + [StartDisplayServer];
        return;
      }
      StartSocketServerAndGreeter();
    }

    method StartSocketServerAndGreeter()
      modifies this`frame, this`log
      ensures frame == old(frame).(started := true, serving := true, greeterUp := true)
      ensures log == old(log) + [GreeterStarted]
    {
      frame := frame.(serving := true, greeterUp := true);
      log := log + [GreeterStarted];
      frame := frame.(started := true);
    }

    /** displayServerStarted */
    method ServerReady(plan: AutologinPlan)
      requires Inv(View()) && Enabled(Abs(View()), Event.ServerReady(plan))
      modifies this, auth
      ensures Inv(View()) && Abs(View()) == Step(Abs(old(View())), Event.ServerReady(plan))
    {
      ghost var f := View();
      assert rootful ==> !auth.state.active;
      assert !frame.started ==> !auth.state.autologin;
      hide Inv, Poised, Begin, Abs, Serve;
      if frame.started {
        return;
      }
      if rootful && !plan.NotRequested? {
        frame := frame.(started := true);
        var ok := AttemptAutologin(plan);
        if !ok {
          HandleAutologinFailure();
          ServeRefines(f, View());
        } else {
          AutologinPoised(f);
          BeginRefines(f.(frame := f.frame.(started := true), auth := f.auth.(autologin := true)),
                       Abs(f).(started := true, autologin := true),
                       None, plan.user, "", plan.session, plan.canReuse);
        }
        return;
      }
      StartSocketServerAndGreeter();
      ServeRefines(f, View());
    }

    // ---------- the greeter's messages ----------

    method AnnounceTransitions(connection: nat)
      requires Inv(View())
      modifies this`frame
      ensures Inv(View()) && Abs(View()) == Step(Abs(old(View())), EnableTransitions(connection))
    {
      ghost var f := View();
      frame := frame.(transitions := frame.transitions + {connection});
      Determined(View(), Step(Abs(f), EnableTransitions(connection)));
    }

    method Login(request: Request, name: string, password: string, session: SessionChoice,
                 canReuse: bool, how: HelperExit)
      requires Inv(View()) && Enabled(Abs(View()), Event.Login(request, name, password, session, canReuse))
      modifies this, auth
      ensures Inv(View())
      ensures Abs(View()) == Step(Abs(old(View())), Event.Login(request, name, password, session, canReuse))
    {
      hide Inv, Abs, Cancellable, Busy, Begin;
      Guards(View());
      ArrivedRefines(View());
      issued := issued + 1;
      Guards(View());
      if login.fingerprintLogin && !login.authenticated {
        var asker := login.socket.value;
        CancelFingerprintLogin(how);
        NotedRefines(View(), [QuietlyCancelled(asker)]);
        log := log + [QuietlyCancelled(asker)];
      }
      TakeLogin(request, name, password, session, canReuse);
    }

    /** The rest of `Login`: no fingerprint run is left that it could take over from. */
    method TakeLogin(request: Request, name: string, password: string, session: SessionChoice, canReuse: bool)
      requires Inv(View()) && Abs(View()).serving && request.id < Abs(View()).issued && !request.fingerprint
      modifies this, auth
      ensures Inv(View())
      ensures var d := Abs(old(View()));
        Abs(View()) == if Busy(d.phase) || name == "gxdm" || !session.Usable() then Emit(d, [LoginFailed(request)])
                       else Begin(d, Some(request), name, password, session, canReuse)
    {
      hide Inv, Abs, Busy, Begin, Poised, Prepared, Searching, Launched, Finished;
      ghost var f := View();
      Guards(f);
      NotedRefines(f, [LoginFailed(request)]);
      if auth.state.active || reuse.lookupPending || login.socket.Some? {
        log := log + [LoginFailed(request)];
        return;
      }
      login := login.(socket := Some(request));
      auth.state := auth.state.(fingerprint := false);
      if name == "gxdm" {
        RefusedAtOnce(f, request);
        FinishLogin(false);
        return;
      }
      TakenOn(f, request);
      BeginRefines(View(), Abs(f), Some(request), name, password, session, canReuse);
      var ok := StartAuth(name, password, session, canReuse);
      if !ok {
        log := log + [LoginFailed(request)];
        login := login.(socket := None);
        PutDownRefines(f.(log := f.log + [LoginFailed(request)]), View());
      }
    }

    method FingerprintLogin(request: Request, name: string, session: SessionChoice, canReuse: bool)
      requires Inv(View()) && Enabled(Abs(View()), Event.FingerprintLogin(request, name, session, canReuse))
      modifies this, auth
      ensures Inv(View())
      ensures Abs(View()) == Step(Abs(old(View())), Event.FingerprintLogin(request, name, session, canReuse))
    {
      hide Inv, Abs, Busy, Begin;
      Guards(View());
      ArrivedRefines(View());
      issued := issued + 1;
      TakeFingerprintLogin(request, name, session, canReuse);
    }

    /** `FingerprintLogin` once the request has been numbered. */
    method TakeFingerprintLogin(request: Request, name: string, session: SessionChoice, canReuse: bool)
      requires Inv(View()) && Abs(View()).serving && request.id < Abs(View()).issued && request.fingerprint
      modifies this, auth
      ensures Inv(View())
      ensures var d := Abs(old(View()));
        Abs(View()) == if Busy(d.phase) || name == "" || name == "gxdm" || !session.Usable()
                       then Emit(d, [FingerprintFinished(request)])
                       else Begin(d, Some(request), name, "", session, canReuse)
    {
      hide Inv, Abs, Busy, Begin, Poised, Prepared, Searching, Launched;
      ghost var f := View();
      Guards(f);
      NotedRefines(f, [FingerprintFinished(request)]);
      if auth.state.active || reuse.lookupPending || login.socket.Some? || name == "" || name == "gxdm" {
        log := log + [FingerprintFinished(request)];
        return;
      }
      login := login.(socket := Some(request), fingerprintLogin := true);
      auth.state := auth.state.(fingerprint := true);
      TakenOn(f, request);
      BeginRefines(View(), Abs(f), Some(request), name, "", session, canReuse);
      var ok := StartAuth(name, "", session, canReuse);
      if !ok {
        login := login.(fingerprintLogin := false, socket := None);
        auth.state := auth.state.(fingerprint := false);
        log := log + [FingerprintFinished(request)];
        PutDownRefines(f.(log := f.log + [FingerprintFinished(request)]), View());
      }
    }

    method FingerprintCancel(connection: nat, how: HelperExit)
      requires Inv(View())
      modifies this, auth
      ensures Inv(View()) && Abs(View()) == Step(Abs(old(View())), Event.FingerprintCancel(connection))
    {
      hide Inv, Cancellable, CancelFingerprint;
      Guards(View());
      if login.fingerprintLogin && login.socket.Some? && login.socket.value.socket == connection
           && !login.authenticated {
        var asker := login.socket.value;
        CancelFingerprintLogin(how);
        NotedRefines(View(), [QuietlyCancelled(asker)]);
        log := log + [QuietlyCancelled(asker)];
      }
    }

    // ---------- the search for a reusable session ----------

    method FinishReusableSessionLookup(generation: nat, found: Option<string>)
      requires reuse.lookupPending ==> !auth.state.active
      modifies this, auth
      ensures View() == if old(reuse.lookupPending) && reuse.lookupGeneration == generation
          then LookedUp(old(View()), found) else old(View())
    {
      if !reuse.lookupPending || reuse.lookupGeneration != generation {
        return;
      }
      reuse := reuse.(lookupPending := false, sessionId := found);
      if found.Some? {
        auth.state := auth.state.(sessionPath := "");
      }
      auth.Start(this);
    }

    method LookupTimedOut(generation: nat)
      requires Inv(View()) && generation in owed.lookupTimers
      modifies this, auth
      ensures Inv(View())
      ensures Abs(View()) == if old(reuse.lookupPending) && generation == old(reuse.lookupGeneration)
                             then Step(Abs(old(View())), LookupTimeout) else Abs(old(View()))
    {
      ghost var f := View();
      assert reuse.lookupPending ==> !auth.state.active;
      hide Inv, Abs, FinishLookup;
      owed := owed.(lookupTimers := owed.lookupTimers - {generation});
      if reuse.lookupPending && reuse.lookupGeneration == generation {
        FinishLookupRefines(f, None, View());
        FinishReusableSessionLookup(generation, None);
      } else {
        DropTimer(f, generation);
      }
    }

    method SessionsListReplied(call: Call, reply: Option<seq<SessionEntry>>)
      requires Inv(View()) && call in owed.calls && call.ListCall?
      modifies this, auth
      ensures Inv(View())
      ensures Abs(View()) == if old(reuse.lookupPending) && call.generation == old(reuse.lookupGeneration)
                             then Step(Abs(old(View())), SessionsListed(reply)) else Abs(old(View()))
    {
      ghost var f := View();
      hide Inv, Abs, Step, Enabled, WellFormed, CallsFit, FinishLookup, PropertyQueries, LookedUp, Candidates, Emit;
      hide Owner, Busy, HelperAlive, Cancellable, Ending;
      Guards(f);
      if reuse.lookupPending && reuse.lookupGeneration == call.generation { ListReplyEnds(f, call, reply); }
      owed := owed.(calls := owed.calls - multiset{call});
      if !reuse.lookupPending || reuse.lookupGeneration != call.generation {
        DropCall(f, call);
        return;
      }
      if reply.None? {
        FinishLookupRefines(f, None, View());
        FinishReusableSessionLookup(call.generation, None);
        return;
      }
      ChooseCandidates(call, reply.value, f);
    }

    /** The rest of `SessionsListReplied`; `f` is the display before the reply. */
    method ChooseCandidates(call: Call, sessions: seq<SessionEntry>, ghost f: Flags)
      requires Inv(f) && !f.auth.active && f.reuse.lookupPending && call in f.owed.calls && call.ListCall?
      requires call.generation == f.reuse.lookupGeneration
      requires View() == f.(owed := f.owed.(calls := f.owed.calls - multiset{call}))
      modifies this, auth
      ensures WellFormed(Abs(f)) && Enabled(Abs(f), SessionsListed(Some(sessions)))
      ensures Inv(View()) && Abs(View()) == Step(Abs(f), SessionsListed(Some(sessions)))
    {
      hide Inv, Abs, Step, Enabled, WellFormed, CallsFit, FinishLookup, Queried;
      hide PropertyQueries, LookedUp, Candidates, Emit;
      ListReplyEnds(f, call, Some(sessions));
      var candidates := FilterByUser(sessions, call.user);
      if candidates == [] {
        FinishLookupRefines(f, None, View());
        FinishReusableSessionLookup(call.generation, None);
        return;
      }
      QueryCandidates(candidates, call.generation, call.sessionType);
      ListedRefines(f, call, sessions, View());
    }

    method FilterByUser(sessions: seq<SessionEntry>, name: string) returns (candidates: seq<SessionEntry>)
      ensures candidates == Candidates(sessions, name)
    {
      candidates := [];
      var i := 0;
      while i < |sessions|
        invariant 0 <= i <= |sessions|
        invariant candidates + Candidates(sessions[i..], name) == Candidates(sessions, name)
      {
        if sessions[i].userName == name {
          candidates := candidates + [sessions[i]];
        }
        i := i + 1;
      }
    }

    method QueryCandidates(candidates: seq<SessionEntry>, generation: nat, requestedType: string)
      modifies this`owed, this`search, this`log
      ensures owed == old(owed).(calls := owed.calls, remaining := old(owed).remaining[generation := |candidates|])
      ensures Queried(old(owed).calls, owed.calls, generation, requestedType, multiset(candidates))
      ensures search == Collecting(requestedType, multiset(candidates))
      ensures log == old(log) + PropertyQueries(candidates)
    {
      owed := owed.(remaining := owed.remaining[generation := |candidates|]);
      QueryProperties(candidates, generation, requestedType);
      search := Collecting(requestedType, multiset(candidates));
    }

    method QueryProperties(candidates: seq<SessionEntry>, generation: nat, requestedType: string)
      modifies this`owed, this`log
      ensures owed == old(owed).(calls := owed.calls)
      ensures Queried(old(owed).calls, owed.calls, generation, requestedType, multiset(candidates))
      ensures log == old(log) + PropertyQueries(candidates)
    {
      hide Queried;
      NothingQueried(owed.calls, generation, requestedType);
      var i := 0;
      while i < |candidates|
        invariant 0 <= i <= |candidates|
        invariant owed == old(owed).(calls := owed.calls)
        invariant Queried(old(owed).calls, owed.calls, generation, requestedType, multiset(candidates[..i]))
        invariant log == old(log) + PropertyQueries(candidates[..i])
      {
        assert candidates[..i + 1] == candidates[..i] + [candidates[i]];
        QueriedMore(old(owed).calls, owed.calls, generation, requestedType, candidates[..i], candidates[i]);
        owed := owed.(calls := owed.calls + multiset{PropertyCall(generation, requestedType, candidates[i])});
        log := log + [GetProperties(candidates[i].id)];
        i := i + 1;
      }
      assert candidates[..i] == candidates;
    }

    method PropertiesReplied(call: Call, properties: Option<Properties>)
      requires Inv(View()) && call in owed.calls && call.PropertyCall?
      modifies this, auth
      ensures Inv(View())
      ensures Abs(View()) == if old(reuse.lookupPending) && call.generation == old(reuse.lookupGeneration)
                             then Step(Abs(old(View())), PropertiesRead(call.entry, properties)) else Abs(old(View()))
    {
      ghost var f := View();
      hide Inv, Abs, Step, Enabled, WellFormed, FinishLookup, LookedUp, CanReuse;
      hide Owner, Busy, HelperAlive, Cancellable, Ending;
      Guards(f);
      if reuse.lookupPending && reuse.lookupGeneration == call.generation {
        PropertyCallIsWaitedFor(f, call);
        PropertyReplyEnds(f, call, properties);
      }
      owed := owed.(calls := owed.calls - multiset{call});
      if !reuse.lookupPending || reuse.lookupGeneration != call.generation {
        DropCall(f, call);
        return;
      }
      if properties.Some? && CanReuse(properties.value, call.sessionType) {
        FinishLookupRefines(f, Some(call.entry.id), View());
        FinishReusableSessionLookup(call.generation, Some(call.entry.id));
        return;
      }
      owed := owed.(remaining := owed.remaining[call.generation := owed.remaining[call.generation] - 1]);
      if owed.remaining[call.generation] == 0 {
        FinishLookupRefines(f, None, View());
        FinishReusableSessionLookup(call.generation, None);
      } else {
        search := Collecting(search.sessionType, search.waiting - multiset{call.entry});
        StillWaiting(f, call, properties);
      }
    }

    // ---------- accepted or refused ----------

    method SlotAuthenticationFinished(success: bool)
      requires names.sessionName.Some?
      modifies this, auth
      ensures View() == if success then Welcomed(old(View())) else Dismissed(old(View()))
      ensures success ==> auth.state == old(auth.state).(deferStart := auth.state.deferStart)
    {
      hide Finished, Proceeded;
      login := login.(authenticated := success);
      if auth.state.autologin && !success {
        HandleAutologinFailure();
        return;
      }
      if success {
        Proceed();
      } else {
        FinishLogin(false);
      }
    }

    /** The rest of `SlotAuthenticationFinished` after a success. */
    method Proceed()
      requires names.sessionName.Some?
      modifies this, auth
      ensures View() == Proceeded(old(View()))
      ensures auth.state == old(auth.state).(deferStart := auth.state.deferStart)
    {
      var pending := BeginTransition();
      if reuse.sessionId.Some? {
        if !pending {
          ActivateReusableSession();
        }
      } else if names.sessionName.Some? {
        names := names.(registry := names.registry + [names.sessionName.value]);
        log := log + [SessionRegistered];
      }
    }

    method BeginTransition() returns (pending: bool)
      modifies this`login, this`log, auth`state
      ensures pending == Announces(old(View())) && View() == TransitionBegun(old(View()))
    {
      var preserveBackground := login.sharedX11 && reuse.sessionId.None?;
      if login.socket.None? || login.socket.value.socket !in frame.transitions {
        return false;
      }
      log := log + [PrepareTransition(login.socket.value, preserveBackground)];
      auth.DeferSessionStart();
      login := login.(transitionTimer := true);
      return true;
    }

    method SlotSessionStarted(ok: bool)
      requires names.registry == [] || (names.sessionName.Some? && names.registry == [names.sessionName.value])
      modifies this, auth
      ensures View() == Opened(old(View()), ok)
    {
      FinishLogin(ok);
      if ok {
        if frame.greeterUp {
          log := log + [GreeterStopped];
        }
        frame := frame.(greeterUp := false);
      } else {
        RemoveDisplayManagerSession();
      }
    }

    // ---------- the transition ----------

    method CompleteTransition()
      requires Inv(View()) && auth.state.authenticationPending
      modifies this, auth
      ensures Inv(View()) && Abs(View()) == DisplaySpec.CompleteTransition(Abs(old(View())))
    {
      ghost var f := View();
      assert !frame.stopping && auth.state.connected;
      hide Inv, Abs;
      log := log + [TransitionOver];
      login := login.(transitionTimer := false);
      if frame.stopping {
        return;
      }
      if reuse.sessionId.Some? {
        ActivateReusableSession();
      }
      auth.ResumeSessionStart(this);
      TransitionRefines(f);
    }

    method TransitionReady(connection: nat)
      requires Inv(View())
      modifies this, auth
      ensures Inv(View()) && Abs(View()) == Step(Abs(old(View())), Event.TransitionReady(connection))
    {
      if login.socket.Some? && connection == login.socket.value.socket && login.transitionTimer {
        CompleteTransition();
      }
    }

    method TransitionTimedOut()
      requires Inv(View()) && login.transitionTimer
      modifies this, auth
      ensures Inv(View()) && Abs(View()) == Step(Abs(old(View())), TransitionTimeout)
    {
      CompleteTransition();
    }

    // ---------- activating a session that is reused ----------

    method ActivateReusableSession()
      requires reuse.sessionId.Some?
      modifies this
      ensures View() == Unlocked(old(View()), old(reuse.sessionId).value)
    {
      reuse := reuse.(activationGeneration := reuse.activationGeneration + 1, activationPending := true);
      reuse := reuse.(activationTimer := true);
      owed := owed.(calls := owed.calls + multiset{UnlockCall(reuse.activationGeneration, reuse.sessionId.value)});
      log := log + [UnlockSession(reuse.sessionId.value)];
    }

    method UnlockReplied(call: Call, ok: bool, how: HelperExit)
      requires Inv(View()) && call in owed.calls && call.UnlockCall?
      modifies this, auth
      ensures Inv(View())
      ensures Abs(View()) == if old(reuse.activationPending) && call.generation == old(reuse.activationGeneration)
                                && old(reuse.sessionId) == Some(call.sid)
                             then Step(Abs(old(View())), UnlockAnswered(ok)) else Abs(old(View()))
    {
      ghost var f := View();
      hide Inv, Abs, FinishActivation;
      owed := owed.(calls := owed.calls - multiset{call});
      if !reuse.activationPending || reuse.activationGeneration != call.generation
           || reuse.sessionId != Some(call.sid) {
        DropCall(f, call);
        return;
      }
      if !ok {
        FinishReusableSessionActivation(false, how, f);
        return;
      }
      owed := owed.(calls := owed.calls + multiset{SwitchCall(call.generation, call.sid)});
      log := log + [ActivateSession(call.sid)];
      UnlockedRefines(f, call, View());
    }

    method SwitchReplied(call: Call, ok: bool, how: HelperExit)
      requires Inv(View()) && call in owed.calls && call.SwitchCall?
      modifies this, auth
      ensures Inv(View())
      ensures Abs(View()) == if old(reuse.activationPending) && call.generation == old(reuse.activationGeneration)
                                && old(reuse.sessionId) == Some(call.sid)
                             then Step(Abs(old(View())), SwitchAnswered(ok)) else Abs(old(View()))
    {
      ghost var f := View();
      hide Inv, Abs, FinishActivation;
      owed := owed.(calls := owed.calls - multiset{call});
      if !reuse.activationPending || reuse.activationGeneration != call.generation
           || reuse.sessionId != Some(call.sid) {
        DropCall(f, call);
        return;
      }
      FinishReusableSessionActivation(ok, how, f);
    }

    method ActivationTimedOut(how: HelperExit)
      requires Inv(View()) && reuse.activationTimer
      modifies this, auth
      ensures Inv(View()) && Abs(View()) == Step(Abs(old(View())), ActivationTimeout)
    {
      FinishReusableSessionActivation(false, how, View());
    }

    /** `f` is the display before the reply was taken off the list of calls. */
    method FinishReusableSessionActivation(success: bool, how: HelperExit, ghost f: Flags)
      requires Inv(f) && f.reuse.activationPending && owed.calls <= f.owed.calls
          && View() == f.(owed := f.owed.(calls := owed.calls))
      modifies this, auth
      ensures Inv(View()) && Abs(View()) == FinishActivation(Abs(f), success)
    {
      hide Inv, StopDisplay;
      if !reuse.activationPending {
        return;
      }
      reuse := reuse.(activationPending := false, activationTimer := false);
      if !success {
        reuse := reuse.(sessionId := None);
      }
      FinishLogin(success);
      ActivationOverRefines(f, success, f.(owed := f.owed.(calls := owed.calls)));
      if reuse.helperFinished {
        Stop(how);
      }
    }
  }
}
