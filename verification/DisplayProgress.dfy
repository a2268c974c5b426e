/** Liveness and the search for a session to reuse: how each request comes to its result. */
module DisplayProgress {
  import opened LoginTypes
  import opened SessionReuse
  import opened DisplaySpec
  import opened DisplayFlags
  import opened DisplaySafety
  import Causes = DisplayCauses

  // ---------- no lost wakeup ----------

  /** The timer or the end of the helper that moves a waiting request on if nothing else does. */
  predicate Wakes(p: Phase, e: Event) {
    match p
    case LookingUp(_, _) => e.LookupTimeout?
    case Held(_, _) => e.TransitionTimeout?
    case Activating(_, _, _, _) => e.ActivationTimeout?
    case _ => e.HelperExits?
  }

  /** How many wakeups a phase is away from its result. */
  function Distance(p: Phase): nat {
    match p
    case LookingUp(_, search) => if search.Listing? then 5 else 4
    case Proving(_, _) => 3
    case Held(_, _) => 2
    case Opening(_) => 1
    case Activating(_, _, _, _) => 1
    case _ => 0
  }

  /** In the fields: whenever a request is outstanding, its wakeup is under way. */
  lemma WakeupIsArmed(f: Flags)
    requires Inv(f) && f.login.socket.Some?
    ensures (f.reuse.lookupPending && f.reuse.lookupGeneration in f.owed.lookupTimers)
         || (f.reuse.activationPending && f.reuse.activationTimer)
         || f.auth.active
    ensures f.auth.active && f.auth.authenticationPending ==> f.login.transitionTimer
    ensures !(f.reuse.lookupPending && (f.auth.active || f.reuse.activationPending))
  {
  }

  lemma StopLeavesNobodyWaiting(d: Daemon)
    ensures d.started ==> StopDisplay(d).phase.Idle?
    ensures !d.started ==> StopDisplay(d) == d
    ensures StopDisplay(d).issued == d.issued
  {
  }

  /** How a step may change who waits: nobody new, except the request that has just arrived. */
  predicate Passes(d: Daemon, e: Event) 
    requires WellFormed(d) && Enabled(d, e)
  {
    var d' := Step(d, e);
    && d.issued <= d'.issued
    && (Owner(d'.phase).Some? ==> Owner(d'.phase) == Owner(d.phase) || Owner(d'.phase).value.id == d.issued)
    && (Owner(d'.phase).Some? && Owner(d'.phase) == Owner(d.phase) ==>
          Distance(d'.phase) <= Distance(d.phase) && (Wakes(d.phase, e) ==> Distance(d'.phase) < Distance(d.phase)))
  }

  lemma RequestPasses(d: Daemon, e: Event)
    requires WellFormed(d) && Enabled(d, e) && (e.Login? || e.FingerprintLogin?)
    ensures Passes(d, e)
  {
  }

  lemma StartPasses(d: Daemon, e: Event)
    requires WellFormed(d) && Enabled(d, e) && (e.StartDisplay? || e.ServerReady?)
    ensures Passes(d, e)
  {
  }

  lemma LookupPasses(d: Daemon, e: Event)
    requires WellFormed(d) && Enabled(d, e) && (e.SessionsListed? || e.LookupTimeout?)
    ensures Passes(d, e)
  {
    hide Candidates, PropertyQueries;
  }

  lemma PropertiesPass(d: Daemon, e: Event)
    requires WellFormed(d) && Enabled(d, e) && e.PropertiesRead?
    ensures Passes(d, e)
  {
    hide CanReuse;
  }

  lemma AuthenticationPasses(d: Daemon, e: Event)
    requires WellFormed(d) && Enabled(d, e) && e.HelperSays? && e.message.Authenticated?
    ensures Passes(d, e)
  {
  }

  lemma SessionStatusPasses(d: Daemon, e: Event)
    requires WellFormed(d) && Enabled(d, e) && e.HelperSays? && e.message.SessionStatus?
    ensures Passes(d, e)
  {
  }

  lemma RemarkPasses(d: Daemon, e: Event)
    requires WellFormed(d) && Enabled(d, e) && e.HelperSays? && !e.message.Authenticated? && !e.message.SessionStatus?
    ensures Passes(d, e)
  {
    hide Answers;
  }

  lemma ActivationPasses(d: Daemon, e: Event)
    requires WellFormed(d) && Enabled(d, e) && (e.UnlockAnswered? || e.SwitchAnswered? || e.ActivationTimeout?)
    ensures Passes(d, e)
  {
    hide StopDisplay;
    if e != UnlockAnswered(true) && !d.phase.helperAlive {
      var result := if e == SwitchAnswered(true) then Success(d.phase) else Failure(d.phase);
      StopLeavesNobodyWaiting(Rest(Emit(d, result)));
    }
  }

  lemma ExitPasses(d: Daemon, e: Event)
    requires WellFormed(d) && Enabled(d, e) && e.HelperExits?
    ensures Passes(d, e)
  {
    hide StopDisplay;
    if !d.phase.Activating? {
      StopLeavesNobodyWaiting(Rest(Emit(Bury(d, e.how), Failure(d.phase))));
    }
  }

  /** No event takes an outstanding request further away from its result, and a wakeup brings it
      nearer; a request becomes the one that is outstanding only when it arrives. */
  lemma NeverFurtherAway(d: Daemon, e: Event)
    requires WellFormed(d) && Enabled(d, e)
    ensures Passes(d, e)
  {
    match e
    case StartDisplay(_) => StartPasses(d, e);
    case ServerReady(_) => StartPasses(d, e);
    case Login(_, _, _, _, _) => RequestPasses(d, e);
    case FingerprintLogin(_, _, _, _) => RequestPasses(d, e);
    case SessionsListed(_) => LookupPasses(d, e);
    case PropertiesRead(_, _) => PropertiesPass(d, e);
    case LookupTimeout => LookupPasses(d, e);
    case HelperSays(message) =>
      if message.Authenticated? { AuthenticationPasses(d, e); }
      else if message.SessionStatus? { SessionStatusPasses(d, e); }
      else { RemarkPasses(d, e); }
    case UnlockAnswered(_) => ActivationPasses(d, e);
    case SwitchAnswered(_) => ActivationPasses(d, e);
    case ActivationTimeout => ActivationPasses(d, e);
    case HelperExits(_) => ExitPasses(d, e);
    case Stop => StopLeavesNobodyWaiting(d);
    case _ => hide StopDisplay;
  }

  /** The wakeups of request `id` among the events of a run. */
  function Wakeups(d: Daemon, events: seq<Event>, id: nat): nat
    requires Feasible(d, events)
    decreases |events|
  {
    if events == [] then 0
    else (if Outstanding(d, id) && Wakes(d.phase, events[0]) then 1 else 0)
         + Wakeups(Step(d, events[0]), events[1..], id)
  }

  lemma {:induction false} SettledForGood(d: Daemon, events: seq<Event>, id: nat)
    requires Feasible(d, events) && id < d.issued && !Outstanding(d, id)
    ensures id < Run(d, events).issued && !Outstanding(Run(d, events), id)
    decreases |events|
  {
    if events != [] {
      NeverFurtherAway(d, events[0]);
      SettledForGood(Step(d, events[0]), events[1..], id);
    }
  }

  lemma {:induction false} NotOutstandingInTime(d: Daemon, events: seq<Event>, id: nat)
    requires Feasible(d, events) && id < d.issued && Outstanding(d, id) && Wakeups(d, events, id) >= Distance(d.phase)
    ensures id < Run(d, events).issued && !Outstanding(Run(d, events), id)
    decreases |events|
  {
    if events != [] {
      var d' := Step(d, events[0]);
      NeverFurtherAway(d, events[0]);
      if Outstanding(d', id) {
        NotOutstandingInTime(d', events[1..], id);
      } else {
        SettledForGood(d', events[1..], id);
      }
    }
  }

  /** No lost wakeup: at the latest with its fifth wakeup, an outstanding request has its one result. */
  lemma SettledInTime(rootful: bool, past: seq<Event>, events: seq<Event>, id: nat)
    requires Feasible(Initial(rootful), past)
    requires var d := Run(Initial(rootful), past);
      Outstanding(d, id) && Feasible(d, events) && Wakeups(d, events, id) >= Distance(d.phase)
    ensures Settlements(Run(Run(Initial(rootful), past), events).log, id) == 1
    ensures Distance(Run(Initial(rootful), past).phase) <= 5
  {
    var d := Run(Initial(rootful), past);
    InitialIsSound(rootful);
    RunKeepsSound(Initial(rootful), past);
    RunKeepsSound(d, events);
    NotOutstandingInTime(d, events, id);
    var end := Run(d, events);
    assert Balanced(end.log, AccountOf(end));
  }

  // ---------- the search for a session to reuse ----------

  lemma {:induction false} CandidatesAreTheUsers(entries: seq<SessionEntry>, user: string, e: SessionEntry)
    ensures multiset(Candidates(entries, user))[e] == if e.userName == user then multiset(entries)[e] else 0
  {
    if entries != [] {
      CandidatesAreTheUsers(entries[1..], user, e);
      assert entries == [entries[0]] + entries[1..];
    }
  }

  /** Events that come while the display collects replies: replies, and whatever leaves the search alone. */
  predicate Gathering(d: Daemon, events: seq<Event>)
    decreases |events|
  {
    events == [] ||
    (d.phase.LookingUp? && WellFormed(d) && Enabled(d, events[0])
     && (events[0].PropertiesRead? || Step(d, events[0]).phase == d.phase)
     && Gathering(Step(d, events[0]), events[1..]))
  }

  lemma {:induction false} GatheringIsFeasible(d: Daemon, events: seq<Event>)
    requires Gathering(d, events)
    ensures Feasible(d, events)
    decreases |events|
  {
    if events != [] { GatheringIsFeasible(Step(d, events[0]), events[1..]); }
  }

  predicate Usable(e: Event, sessionType: string) {
    e.PropertiesRead? && e.properties.Some? && Causes.Fits(e.properties.value, sessionType)
  }

  /** The first reply, in the order of arrival, that offers a session to reuse. */
  function FirstUsable(events: seq<Event>, sessionType: string): Option<SessionEntry> {
    if events == [] then None
    else if Usable(events[0], sessionType) then Some(events[0].entry)
    else FirstUsable(events[1..], sessionType)
  }

  function Entries(events: seq<Event>): multiset<SessionEntry> {
    if events == [] then multiset{}
    else if events[0].PropertiesRead? then multiset{events[0].entry} + Entries(events[1..])
    else Entries(events[1..])
  }

  lemma GatheringStep(d: Daemon, e: Event)
    requires WellFormed(d) && Enabled(d, e) && d.phase.LookingUp? && d.phase.search.Collecting?
    requires e.PropertiesRead? || Step(d, e).phase == d.phase
    ensures var (sessionType, waiting) := (d.phase.search.sessionType, d.phase.search.waiting);
      Step(d, e).phase ==
        if !e.PropertiesRead? then d.phase
        else if Usable(e, sessionType) then Proving(d.phase.owner, Some(e.entry.id))
        else if waiting == multiset{e.entry} then Proving(d.phase.owner, None)
        else LookingUp(d.phase.owner, Collecting(sessionType, waiting - multiset{e.entry}))
    ensures e.PropertiesRead? ==> e.entry in d.phase.search.waiting
    ensures Step(d, e).phase.LookingUp? && e.PropertiesRead? ==>
      d.phase.search.waiting - multiset{e.entry} != multiset{}
  {
    if e.PropertiesRead? {
      var waiting := d.phase.search.waiting;
      assert waiting == (waiting - multiset{e.entry}) + multiset{e.entry};
    }
  }

  lemma Taken(waiting: multiset<SessionEntry>, e: SessionEntry, rest: multiset<SessionEntry>)
    requires e in waiting && rest <= waiting - multiset{e}
    ensures multiset{e} + rest <= waiting && waiting - multiset{e} - rest == waiting - (multiset{e} + rest)
    ensures rest == waiting - multiset{e} <==> multiset{e} + rest == waiting
  {
    assert waiting == (waiting - multiset{e}) + multiset{e};
    assert multiset{e} + rest == waiting ==> rest == waiting - multiset{e};
  }

  /** However many sessions are asked about and however their replies are ordered: the first usable
      one ends the search; without one it ends with the last reply; until then it goes on. */
  lemma {:induction false} FanOut(d: Daemon, events: seq<Event>)
    requires Gathering(d, events) && d.phase.LookingUp? && d.phase.search.Collecting?
    requires d.phase.search.waiting != multiset{}
    ensures Feasible(d, events) && Entries(events) <= d.phase.search.waiting
    ensures var sessionType := d.phase.search.sessionType;
      var first := FirstUsable(events, sessionType);
      Run(d, events).phase ==
        if first.Some? then Proving(d.phase.owner, Some(first.value.id))
        else if Entries(events) == d.phase.search.waiting then Proving(d.phase.owner, None)
        else LookingUp(d.phase.owner, Collecting(sessionType, d.phase.search.waiting - Entries(events)))
    decreases |events|
  {
    GatheringIsFeasible(d, events);
    hide Step, Enabled, WellFormed, Causes.Fits;
    if events != [] {
      var (waiting, e) := (d.phase.search.waiting, events[0]);
      GatheringStep(d, e);
      if Step(d, e).phase.LookingUp? {
        FanOut(Step(d, e), events[1..]);
        if e.PropertiesRead? { Taken(waiting, e.entry, Entries(events[1..])); }
      } else {
        assert events[1..] == [];
      }
    }
  }

  lemma {:induction false} FirstUsableIsOne(events: seq<Event>, sessionType: string) returns (i: nat)
    requires FirstUsable(events, sessionType).Some?
    ensures i < |events| && Usable(events[i], sessionType) && FirstUsable(events, sessionType) == Some(events[i].entry)
    ensures events[i].entry in Entries(events)
  {
    if Usable(events[0], sessionType) {
      i := 0;
    } else {
      var j := FirstUsableIsOne(events[1..], sessionType);
      i := j + 1;
    }
  }

  /** From the session list on: a session that is reused is on the list, belongs to the user, and a
      reply has found it fit for the requested type. */
  lemma ReusedSessionIsTheUsers(d: Daemon, sessions: seq<SessionEntry>, events: seq<Event>, end: Daemon)
    returns (i: nat)
    requires WellFormed(d) && d.phase.LookingUp? && d.phase.search.Listing?
    requires var asked := Step(d, SessionsListed(Some(sessions)));
      Gathering(asked, events) && Feasible(asked, events) && end == Run(asked, events)
    requires end.phase.Proving? && end.phase.reuse.Some?
    ensures i < |events| && events[i].PropertiesRead? && end.phase.reuse == Some(events[i].entry.id)
    ensures events[i].properties.Some?
    ensures var p := events[i].properties.value;
      && (p.service == "gxdm" || p.service == "gxdm-autologin") && p.state == "online"
      && p.sessionClass == "user" && p.sessionType == d.phase.search.sessionType
    ensures events[i].entry in sessions && events[i].entry.userName == d.phase.search.user
  {
    var (user, sessionType) := (d.phase.search.user, d.phase.search.sessionType);
    var asked := Step(d, SessionsListed(Some(sessions)));
    var candidates := Candidates(sessions, user);
    if candidates == [] {
      assert false;
    } else {
      assert candidates[0] in multiset(candidates);
      FanOut(asked, events);
      i := FirstUsableIsOne(events, sessionType);
      CandidatesAreTheUsers(sessions, user, events[i].entry);
    }
  }

  // ---------- the end of a display ----------

  function Count(log: seq<Output>, o: Output): nat {
    if log == [] then 0 else (if log[0] == o then 1 else 0) + Count(log[1..], o)
  }

  lemma {:induction false} CountSum(a: seq<Output>, b: seq<Output>, o: Output)
    ensures Count(a + b, o) == Count(a, o) + Count(b, o)
  {
    if a == [] {
      assert a + b == b;
    } else {
      assert (a + b)[1..] == a[1..] + b;
      CountSum(a[1..], b, o);
    }
  }

  lemma FarewellStopsOnce(p: Phase)
    ensures Count(Failure(p) + Unregistration(p) + Death(p) + [DisplayStopped], DisplayStopped) == 1
  {
    var said := Failure(p) + Unregistration(p) + Death(p);
    CountSum(said, [DisplayStopped], DisplayStopped);
    CountSum(Failure(p) + Unregistration(p), Death(p), DisplayStopped);
    CountSum(Failure(p), Unregistration(p), DisplayStopped);
  }

  /** Stopping says so once and last, fails the outstanding request, and is done the second time. */
  lemma StopIsFinal(d: Daemon)
    requires d.started
    ensures StopDisplay(d).phase.Idle? && StopDisplay(StopDisplay(d)) == StopDisplay(d)
    ensures Count(StopDisplay(d).log, DisplayStopped) == Count(d.log, DisplayStopped) + 1
    ensures StopDisplay(d).log[|StopDisplay(d).log| - 1] == DisplayStopped
    ensures Owner(d.phase).Some? ==> Failure(d.phase) != [] && d.log + Failure(d.phase) <= StopDisplay(d).log
  {
    hide Count, Unregistration, Death;
    FarewellStopsOnce(d.phase);
    CountSum(d.log, Failure(d.phase) + Unregistration(d.phase) + Death(d.phase) + [DisplayStopped], DisplayStopped);
  }

  /** In the fields: a display at rest has nothing outstanding, pending or armed. */
  lemma RestIsClean(f: Flags)
    requires Inv(f) && Abs(f).phase.Idle?
    ensures f.login.socket.None? && !f.login.fingerprintLogin && !f.login.transitionTimer
    ensures !f.reuse.lookupPending && !f.reuse.activationPending && !f.reuse.activationTimer
    ensures !f.auth.active && !f.auth.deferStart && !f.auth.authenticationPending && f.names.registry == []
  {
  }

  /** Calling off a fingerprint login does not stop the display. */
  lemma CancellingNeverStops(d: Daemon, e: Event)
    requires WellFormed(d) && Enabled(d, e) && (e.FingerprintCancel? || e.PromptCancelFires? || e.Login?)
    ensures Step(d, e).started == d.started && Step(d, e).greeterUp == d.greeterUp && Step(d, e).ended == d.ended
  {
  }

  lemma {:induction false} StoppedIsLast(log: seq<Output>, i: nat)
    requires !Watch(log).Alarm? && i < |log| && log[i] == DisplayStopped
    ensures i == |log| - 1
  {
    if i < |log| - 1 {
      StoppedIsLast(log[..|log| - 1], i);
    }
  }

  /** A display that has stopped is silent ever after. */
  lemma NothingAfterTheEnd(rootful: bool, events: seq<Event>, i: nat)
    requires Feasible(Initial(rootful), events)
    requires i < |Run(Initial(rootful), events).log| && Run(Initial(rootful), events).log[i] == DisplayStopped
    ensures i == |Run(Initial(rootful), events).log| - 1
  {
    ResultsAreJustified(rootful, events);
    StoppedIsLast(Run(Initial(rootful), events).log, i);
  }

  /** When the user's session ends, the display is stopped, and so replaced by one with a greeter,
      unless the session's exit status is the one that means a failed authentication. */
  lemma SessionEndStopsUnless(d: Daemon, how: HelperExit)
    requires WellFormed(d) && d.phase == Detached(true)
    ensures Step(d, HelperExits(how)).ended <==> how != Exited(1)
    ensures how == Exited(1) ==>
      var d' := Step(d, HelperExits(how)); d'.started && d'.phase.Idle? && d'.greeterUp == d.greeterUp
  {
  }

  const ADA := Request(0, 7, false)

  function AdaAsks(): seq<Event> {
    [ServerReady(NotRequested)]
      + [Event.Login(ADA, "ada", "secret", SessionChoice(true, false, "wayland", "sway"), false)]
  }

  /** A display whose user `ada` has logged in with a password. */
  function AdaIsIn(): seq<Event> {
    AdaAsks() + [HelperSays(Authenticated("ada"))] + [HelperSays(SessionStatus(true))]
  }

  lemma AdaMayAsk()
    ensures Feasible(Initial(false), AdaAsks())
    ensures var d := Run(Initial(false), AdaAsks());
      WellFormed(d) && d.phase == Proving(Some(ADA), None) && d.started && d.transitions == {}
  {
    var d0 := Initial(false);
    OneMore(d0, [], ServerReady(NotRequested));
    assert [] + [ServerReady(NotRequested)] == [ServerReady(NotRequested)];
    OneMore(d0, [ServerReady(NotRequested)], AdaAsks()[1]);
  }

  lemma AdaIsAccepted()
    ensures var events := AdaAsks() + [HelperSays(Authenticated("ada"))];
      && Feasible(Initial(false), events)
      && var d := Run(Initial(false), events); WellFormed(d) && d.phase == Opening(Some(ADA)) && d.started
  {
    hide AdaAsks;
    AdaMayAsk();
    OneMore(Initial(false), AdaAsks(), HelperSays(Authenticated("ada")));
  }

  lemma OpenedSessionHasNoGreeter(d: Daemon)
    requires WellFormed(d) && d.phase.Opening? && d.started
    ensures var d' := Step(d, HelperSays(SessionStatus(true)));
      WellFormed(d') && d'.phase == Detached(true) && d'.started && !d'.greeterUp
  {
  }

  lemma OneLoginRuns()
    ensures Feasible(Initial(false), AdaIsIn())
    ensures var d := Run(Initial(false), AdaIsIn());
      WellFormed(d) && d.phase == Detached(true) && d.started && !d.greeterUp
  {
    hide AdaAsks, Step, WellFormed;
    AdaIsAccepted();
    var events := AdaAsks() + [HelperSays(Authenticated("ada"))];
    OpenedSessionHasNoGreeter(Run(Initial(false), events));
    OneMore(Initial(false), events, HelperSays(SessionStatus(true)));
  }

  /** So a session that exits with status 1 leaves a display that runs without a greeter. */
  lemma SessionEndWithoutGreeter(code: int)
    ensures var events := AdaIsIn() + [HelperExits(Exited(code))];
      && Feasible(Initial(false), events)
      && var d := Run(Initial(false), events);
         if code == 1 then d.started && d.phase.Idle? && !d.greeterUp && !d.ended else d.ended
  {
    hide Step;
    OneLoginRuns();
    SessionEndStopsUnless(Run(Initial(false), AdaIsIn()), Exited(code));
    OneMore(Initial(false), AdaIsIn(), HelperExits(Exited(code)));
  }
}
