/** A display that is driven by whatever its surroundings deliver, replies to calls of abandoned
    attempts and timers of abandoned searches included. */
module DisplayRun {
  import opened LoginTypes
  import opened DisplaySpec
  import opened DisplayFlags
  import opened DisplayDaemon
  import Runs = DisplaySafety

  /** What can be delivered to a display; `how` is the way a helper dies that is killed meanwhile. */
  datatype Stimulus =
    | Happens(event: Event, how: HelperExit)
    | ListReply(call: Call, sessions: Option<seq<SessionEntry>>)
    | PropertyReply(call: Call, properties: Option<Properties>)
    | UnlockReply(call: Call, ok: bool, how: HelperExit)
    | SwitchReply(call: Call, ok: bool, how: HelperExit)
    | LookupTimer(generation: nat)

  /** Replies and timers are delivered only once, and only if they are due. */
  predicate Possible(f: Flags, s: Stimulus) {
    match s
    case Happens(e, _) =>
      && !e.SessionsListed? && !e.PropertiesRead? && !e.LookupTimeout? && !e.UnlockAnswered? && !e.SwitchAnswered?
      && Enabled(Abs(f), e)
    case ListReply(call, _) => call.ListCall? && call in f.owed.calls
    case PropertyReply(call, _) => call.PropertyCall? && call in f.owed.calls
    case UnlockReply(call, _, _) => call.UnlockCall? && call in f.owed.calls
    case SwitchReply(call, _, _) => call.SwitchCall? && call in f.owed.calls
    case LookupTimer(generation) => generation in f.owed.lookupTimers
  }

  predicate OfPendingSearch(f: Flags, generation: nat) {
    f.reuse.lookupPending && generation == f.reuse.lookupGeneration
  }

  predicate OfPendingActivation(f: Flags, call: Call)
    requires call.UnlockCall? || call.SwitchCall?
  {
    f.reuse.activationPending && call.generation == f.reuse.activationGeneration && f.reuse.sessionId == Some(call.sid)
  }

  /** The event a stimulus is; a stale one is none. */
  function Meaning(f: Flags, s: Stimulus): Option<Event>
    requires Possible(f, s)
  {
    match s
    case Happens(e, _) => Some(e)
    case ListReply(call, sessions) =>
      if OfPendingSearch(f, call.generation) then Some(SessionsListed(sessions)) else None
    case PropertyReply(call, properties) =>
      if OfPendingSearch(f, call.generation) then Some(PropertiesRead(call.entry, properties)) else None
    case UnlockReply(call, ok, _) => if OfPendingActivation(f, call) then Some(UnlockAnswered(ok)) else None
    case SwitchReply(call, ok, _) => if OfPendingActivation(f, call) then Some(SwitchAnswered(ok)) else None
    case LookupTimer(generation) => if OfPendingSearch(f, generation) then Some(LookupTimeout) else None
  }

  lemma MeaningIsEnabled(f: Flags, s: Stimulus)
    requires Inv(f) && Possible(f, s)
    ensures WellFormed(Abs(f)) && (Meaning(f, s).Some? ==> Enabled(Abs(f), Meaning(f, s).value))
  {
  }

  /** One step of the display: the step of the phase machine that the stimulus means, or none. */
  method Deliver(display: Display, s: Stimulus)
    requires Inv(display.View()) && Possible(display.View(), s)
    modifies display, display.auth, display.auth.request
    ensures Inv(display.View())
    ensures WellFormed(Abs(old(display.View())))
    ensures match Meaning(old(display.View()), s)
            case None => Abs(display.View()) == Abs(old(display.View()))
            case Some(e) =>
              Enabled(Abs(old(display.View())), e)
              && Abs(display.View()) == Step(Abs(old(display.View())), e)
  {
    MeaningIsEnabled(display.View(), s);
    match s
    case Happens(e, how) => DeliverEvent(display, e, how);
    case ListReply(call, sessions) => display.SessionsListReplied(call, sessions);
    case PropertyReply(call, properties) => display.PropertiesReplied(call, properties);
    case UnlockReply(call, ok, how) => display.UnlockReplied(call, ok, how);
    case SwitchReply(call, ok, how) => display.SwitchReplied(call, ok, how);
    case LookupTimer(generation) => display.LookupTimedOut(generation);
  }

  method DeliverEvent(display: Display, e: Event, how: HelperExit)
    requires Inv(display.View()) && Possible(display.View(), Happens(e, how))
    modifies display, display.auth, display.auth.request
    ensures Inv(display.View())
    ensures WellFormed(Abs(old(display.View()))) && Enabled(Abs(old(display.View())), e)
    ensures Abs(display.View()) == Step(Abs(old(display.View())), e)
  {
    match e
    case StartDisplay(plan) => display.StartDisplay(plan);
    case ServerReady(plan) => display.ServerReady(plan);
    case EnableTransitions(socket) => display.AnnounceTransitions(socket);
    case Login(request, user, passPhrase, session, canReuse) =>
      display.Login(request, user, passPhrase, session, canReuse, how);
    case FingerprintLogin(request, user, session, canReuse) =>
      display.FingerprintLogin(request, user, session, canReuse);
    case FingerprintCancel(socket) => display.FingerprintCancel(socket, how);
    case PromptCancelFires => display.PromptCancelFires(how);
    case HelperSays(message) => display.auth.DataPending(display, [message]);
    case TransitionReady(socket) => display.TransitionReady(socket);
    case TransitionTimeout => display.TransitionTimedOut();
    case ActivationTimeout => display.ActivationTimedOut(how);
    case HelperExits(exit) => display.auth.ChildExited(display, exit);
    case Stop => display.Stop(how);
    case _ =>
  }

  predicate Serves(display: Display, id: nat)
    reads display
  {
    display.login.socket.Some? && display.login.socket.value.id == id
  }

  /** Whatever is delivered, and in whatever order, the display behaves as a run of the phase
      machine; so each request it was sent has one result or is the one it still works on, and no
      result contradicts PAM. */
  method Operate(rootful: bool, stimuli: seq<Stimulus>) returns (display: Display, ghost events: seq<Event>)
    ensures fresh(display) && Inv(display.View())
    ensures Runs.Feasible(Initial(rootful), events) && Abs(display.View()) == Runs.Run(Initial(rootful), events)
    ensures forall id: nat ::
      Runs.Settlements(display.log, id) == (if id < display.issued && !Serves(display, id) then 1 else 0)
    ensures Runs.AllJustified(display.log) && !Runs.Watch(display.log).Alarm?
  {
    display := new Display(rootful);
    events := [];
    var i := 0;
    while i < |stimuli|
      invariant 0 <= i <= |stimuli|
      invariant fresh(display) && fresh(display.auth) && fresh(display.auth.request) && Inv(display.View())
      invariant Runs.Feasible(Initial(rootful), events) && Abs(display.View()) == Runs.Run(Initial(rootful), events)
    {
      if Possible(display.View(), stimuli[i]) {
        ghost var meaning := Meaning(display.View(), stimuli[i]);
        Deliver(display, stimuli[i]);
        if meaning.Some? {
          Runs.OneMore(Initial(rootful), events, meaning.value);
          events := events + [meaning.value];
        }
      }
      i := i + 1;
    }
    Guards(display.View());
    Runs.ResultsAreJustified(rootful, events);
    forall id: nat
      ensures Runs.Settlements(display.log, id) == (if id < display.issued && !Serves(display, id) then 1 else 0)
    {
      Runs.ExactlyOneResult(rootful, events, id);
    }
  }
}
