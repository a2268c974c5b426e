/** What holds over every run of the login protocol. */
module DisplaySafety {
  import opened LoginTypes
  import opened DisplaySpec
  import opened SessionReuse

  // ---------- runs ----------

  predicate Feasible(d: Daemon, events: seq<Event>)
    decreases |events|
  {
    events == [] ||
    (WellFormed(d) && Enabled(d, events[0]) && Feasible(Step(d, events[0]), events[1..]))
  }

  function Run(d: Daemon, events: seq<Event>): Daemon
    requires Feasible(d, events)
    decreases |events|
  {
    if events == [] then d else Run(Step(d, events[0]), events[1..])
  }

  lemma {:induction false} OneMore(d: Daemon, events: seq<Event>, e: Event)
    requires Feasible(d, events) && WellFormed(Run(d, events)) && Enabled(Run(d, events), e)
    ensures Feasible(d, events + [e]) && Run(d, events + [e]) == Step(Run(d, events), e)
    decreases |events|
  {
    if events == [] {
      assert (events + [e])[1..] == [];
    } else {
      OneMore(Step(d, events[0]), events[1..], e);
      assert (events + [e])[1..] == events[1..] + [e];
    }
  }

  // ---------- the properties, stated on the log alone ----------

  /** How many results request `id` has been given. */
  function Settlements(log: seq<Output>, id: nat): nat {
    if log == [] then 0
    else
      var last := Settles(log[|log| - 1]);
      Settlements(log[..|log| - 1], id) + if last.Some? && last.value.id == id then 1 else 0
  }

  /** Whether output `o` may follow the log `past`, given what PAM has accepted so far. */
  predicate Justified(past: seq<Output>, o: Output) {
    match o
    case LoginSucceeded(r) => PamAccepted(Some(r)) in past
    case LoginFailed(r) => r.fingerprint ==> PamAccepted(Some(r)) in past
    case FingerprintFinished(r) => r.fingerprint && PamAccepted(Some(r)) !in past
    case QuietlyCancelled(r) => r.fingerprint && PamAccepted(Some(r)) !in past
    case PrepareTransition(r, _) => PamAccepted(Some(r)) in past
    case _ => true
  }

  predicate AllJustified(log: seq<Output>) {
    forall i | 0 <= i < |log| :: Justified(log[..i], log[i])
  }

  datatype Gate = Off | Running | Cleared | Waiting | Released

  /** A watchman over the helper, the session registry and the end of the display. `Alarm` is final,
      and after `Closed` nothing may be said any more. */
  datatype Monitor = Alarm | Closed | Watching(gate: Gate, registered: bool)

  function Observe(m: Monitor, o: Output): Monitor {
    if !m.Watching? then Alarm else
    match o
    case DisplayStopped => if m.gate.Off? && !m.registered then Closed else Alarm
    case HelperStarted(_, _, _, _) => if m.gate.Off? then m.(gate := Running) else Alarm
    case HelperEnded => if m.gate.Off? then Alarm else m.(gate := Off)
    case PamAccepted(_) => if m.gate.Running? then m.(gate := Cleared) else Alarm
    case PrepareTransition(_, _) => if m.gate.Cleared? then m.(gate := Waiting) else Alarm
    case TransitionOver => if m.gate.Waiting? then m.(gate := Cleared) else Alarm
    case UnlockSession(_) => if m.gate.Cleared? then m else Alarm
    case SendReply(AuthenticatedReply) => if m.gate.Cleared? then m.(gate := Released) else Alarm
    case SendReply(SessionStatusReply) => if m.gate.Released? then m else Alarm
    case SendReply(PromptReply(_)) => if m.gate.Off? then Alarm else m
    case SessionRegistered => if m.gate.Off? || m.registered then Alarm else m.(registered := true)
    case SessionUnregistered => if m.registered then m.(registered := false) else Alarm
    case ListSessions => if m.gate.Off? then m else Alarm
    case GetProperties(_) => if m.gate.Off? then m else Alarm
    case _ => m
  }

  function Watch(log: seq<Output>): Monitor {
    if log == [] then Watching(Off, false) else Observe(Watch(log[..|log| - 1]), log[|log| - 1])
  }

  // ---------- one output at a time ----------

  /** What the log must look like when `issued` requests have arrived, `arriving` has just arrived,
      and `owner` is outstanding. */
  datatype Account = Account(issued: nat, arriving: Option<Request>, owner: Option<Request>,
                             accepted: bool, monitor: Monitor)

  predicate Pending(a: Account, id: nat) {
    (a.arriving.Some? && a.arriving.value.id == id) || (a.owner.Some? && a.owner.value.id == id)
  }

  ghost predicate Balanced(log: seq<Output>, a: Account) {
    && (a.arriving.Some? ==> a.arriving.value.id + 1 == a.issued && PamAccepted(a.arriving) !in log)
    && (a.owner.Some? ==> a.owner.value.id < a.issued && (a.accepted <==> PamAccepted(a.owner) in log))
    && (a.arriving.Some? && a.owner.Some? ==> a.arriving.value.id != a.owner.value.id)
    && (forall id: nat :: Settlements(log, id) == if id < a.issued && !Pending(a, id) then 1 else 0)
    && (forall r: Request :: PamAccepted(Some(r)) in log ==> r.id < a.issued)
    && AllJustified(log)
    && Watch(log) == a.monitor && !a.monitor.Alarm?
  }

  /** The outputs that keep the books balanced, and the books afterwards. */
  predicate Allowed(a: Account, o: Output) {
    && !Observe(a.monitor, o).Alarm?
    && match o
       case LoginSucceeded(r) => a.owner == Some(r) && a.accepted
       case LoginFailed(r) => (a.owner == Some(r) && (r.fingerprint ==> a.accepted))
           || (a.arriving == Some(r) && !r.fingerprint)
       case FingerprintFinished(r) => r.fingerprint && ((a.owner == Some(r) && !a.accepted) || a.arriving == Some(r))
       case QuietlyCancelled(r) => r.fingerprint && a.owner == Some(r) && !a.accepted
       case PrepareTransition(r, _) => a.owner == Some(r) && a.accepted
       case PamAccepted(owner) => owner == a.owner && !a.accepted
       case _ => true
  }

  function Book(a: Account, o: Output): Account {
    var a := a.(monitor := Observe(a.monitor, o));
    var settled := Settles(o);
    if settled.Some? && a.arriving == settled then a.(arriving := None)
    else if settled.Some? then a.(owner := None, accepted := false)
    else if o.PamAccepted? then a.(accepted := o.owner.Some?)
    else a
  }

  lemma BookKeepsBalance(log: seq<Output>, a: Account, o: Output)
    requires Balanced(log, a) && Allowed(a, o)
    ensures Balanced(log + [o], Book(a, o))
  {
    var longer := log + [o];
    assert longer[..|longer| - 1] == log;
    forall i | 0 <= i < |longer| ensures Justified(longer[..i], longer[i]) {
      if i < |log| { assert longer[..i] == log[..i]; }
    }
    forall id: nat ensures Settlements(longer, id) == if id < a.issued && !Pending(Book(a, o), id) then 1 else 0 {
      assert Settlements(log, id) == if id < a.issued && !Pending(a, id) then 1 else 0;
    }
  }

  lemma Watched(log: seq<Output>, a: Account)
    requires Balanced(log, a)
    ensures Watch(log) == a.monitor && !a.monitor.Alarm?
  {
  }

  lemma BookTwo(log: seq<Output>, a: Account, o1: Output, o2: Output)
    requires Balanced(log, a) && Allowed(a, o1) && Allowed(Book(a, o1), o2)
    ensures Balanced(log + [o1, o2], Book(Book(a, o1), o2))
  {
    BookKeepsBalance(log, a, o1);
    BookKeepsBalance(log + [o1], Book(a, o1), o2);
    assert log + [o1] + [o2] == log + [o1, o2];
  }

  // ---------- the bookkeeping of the phase machine's small steps ----------

  predicate Speaks(a: Account, p: Phase) {
    a.monitor.Watching? && a.owner == Owner(p) && a.accepted == (a.owner.Some? && Accepted(p))
  }

  lemma BookSettlement(log: seq<Output>, a: Account, o: Output)
    requires Balanced(log, a) && a.monitor.Watching? && a.arriving.None? && a.owner.Some?
    requires o == (if a.owner.value.fingerprint && !a.accepted then FingerprintFinished(a.owner.value)
        else LoginFailed(a.owner.value))
          || (a.accepted && o == LoginSucceeded(a.owner.value))
          || (a.owner.value.fingerprint && !a.accepted && o == QuietlyCancelled(a.owner.value))
    ensures Balanced(log + [o], a.(owner := None, accepted := false))
  {
    hide Balanced, Watch;
    BookKeepsBalance(log, a, o);
  }

  lemma BookFailure(log: seq<Output>, a: Account, p: Phase)
    requires Balanced(log, a) && Speaks(a, p) && a.arriving.None?
    ensures Balanced(log + Failure(p), a.(owner := None, accepted := false))
  {
    hide Balanced, Watch;
    if a.owner.Some? {
      BookSettlement(log, a, Failure(p)[0]);
    } else {
      assert log + Failure(p) == log;
    }
  }

  lemma BookSuccess(log: seq<Output>, a: Account, p: Phase)
    requires Balanced(log, a) && Speaks(a, p) && Accepted(p) && a.arriving.None?
    ensures Balanced(log + Success(p), a.(owner := None, accepted := false))
  {
    hide Balanced, Watch;
    if a.owner.Some? {
      BookSettlement(log, a, LoginSucceeded(a.owner.value));
    } else {
      assert log + Success(p) == log;
    }
  }

  lemma BookUnregistration(log: seq<Output>, a: Account, p: Phase)
    requires Balanced(log, a) && a.monitor.Watching? && a.monitor.registered == Registered(p)
    ensures Balanced(log + Unregistration(p), a.(monitor := a.monitor.(registered := false)))
  {
    if Registered(p) {
      BookKeepsBalance(log, a, SessionUnregistered);
    } else {
      assert log + Unregistration(p) == log;
    }
  }

  lemma BookDeath(log: seq<Output>, a: Account, p: Phase)
    requires Balanced(log, a) && a.monitor.Watching? && a.monitor.gate.Off? == !HelperAlive(p)
    ensures Balanced(log + Death(p), a.(monitor := a.monitor.(gate := Off)))
  {
    if HelperAlive(p) {
      BookKeepsBalance(log, a, HelperEnded);
    } else {
      assert log + Death(p) == log;
    }
  }

  // ---------- the invariant of the phase machine ----------

  function AccountOf(d: Daemon): Account {
    Account(d.issued, None, Owner(d.phase), Owner(d.phase).Some? && Accepted(d.phase), Watch(d.log))
  }

  predicate GateFits(p: Phase, gate: Gate) {
    match p
    case Idle => gate.Off?
    case LookingUp(_, _) => gate.Off?
    case Proving(_, _) => gate.Running?
    case Held(_, _) => gate.Waiting?
    case Opening(_) => gate.Released?
    case Activating(_, _, alive, _) => if alive then gate.Released? else gate.Off?
    case Detached(registered) => gate.Released? || (gate.Running? && !registered)
  }

  ghost predicate Sound(d: Daemon) {
    && WellFormed(d)
    && Balanced(d.log, AccountOf(d))
    && if d.ended then Watch(d.log).Closed? else
         Watch(d.log).Watching? && GateFits(d.phase, Watch(d.log).gate)
         && Watch(d.log).registered == Registered(d.phase)
  }

  /** The books of a display without a helper. */
  function Quiet(issued: nat, arriving: Option<Request>, owner: Option<Request>): Account {
    Account(issued, arriving, owner, false, Watching(Off, false))
  }

  lemma StopBalances(log: seq<Output>, a: Account, p: Phase)
    requires Balanced(log, a) && Speaks(a, p) && a.arriving.None?
    requires a.monitor.Watching? && a.monitor.registered == Registered(p) && a.monitor.gate.Off? == !HelperAlive(p)
    ensures Balanced(log + (Failure(p) + Unregistration(p) + Death(p) + [DisplayStopped]),
                     Account(a.issued, None, None, false, Closed))
  {
    hide Balanced, Watch;
    Watched(log, a);
    BookFailure(log, a, p);
    var a := a.(owner := None, accepted := false);
    BookUnregistration(log + Failure(p), a, p);
    a := a.(monitor := a.monitor.(registered := false));
    BookDeath(log + Failure(p) + Unregistration(p), a, p);
    a := a.(monitor := a.monitor.(gate := Off));
    BookKeepsBalance(log + Failure(p) + Unregistration(p) + Death(p), a, DisplayStopped);
    assert log + (Failure(p) + Unregistration(p) + Death(p) + [DisplayStopped])
        == log + Failure(p) + Unregistration(p) + Death(p) + [DisplayStopped];
  }

  lemma StopKeepsSound(d: Daemon)
    requires Sound(d)
    ensures Sound(StopDisplay(d))
  {
    hide Balanced, Watch;
    if d.started {
      Watched(d.log, AccountOf(d));
      StopBalances(d.log, AccountOf(d), d.phase);
      Watched(StopDisplay(d).log, Account(d.issued, None, None, false, Closed));
    }
  }

  /** A fingerprint run that is called off leaves the display at rest, its request still to be settled. */
  lemma CancelKeepsBalance(d: Daemon)
    requires Sound(d) && Cancellable(d.phase)
    ensures Balanced(CancelFingerprint(d).log, Quiet(d.issued, None, Owner(d.phase)))
  {
    hide Balanced, Watch;
    Watched(d.log, AccountOf(d));
    BookDeath(d.log, AccountOf(d), d.phase);
  }

  lemma CancelAndSettleKeepsSound(d: Daemon, o: Output)
    requires Sound(d) && Cancellable(d.phase)
    requires o == QuietlyCancelled(Owner(d.phase).value) || o == FingerprintFinished(Owner(d.phase).value)
    ensures Sound(Emit(CancelFingerprint(d), [o]))
  {
    hide Balanced, Watch;
    CancelKeepsBalance(d);
    BookSettlement(CancelFingerprint(d).log, Quiet(d.issued, None, Owner(d.phase)), o);
    Watched(Emit(CancelFingerprint(d), [o]).log, Quiet(d.issued, None, None));
  }

  lemma StartHelperKeepsSound(d: Daemon, owner: Option<Request>, reuse: Option<string>)
    requires d.attempt.Attempt? && Balanced(d.log, Quiet(d.issued, None, owner))
    requires d.started && !d.ended && (d.serving ==> !d.autologin) && (d.greeterUp ==> d.serving)
    requires if owner.Some? then d.serving && owner.value.id < d.issued else d.autologin
    ensures Sound(StartHelper(d, owner, reuse))
  {
    hide Balanced, Watch;
    var d' := StartHelper(d, owner, reuse);
    var o := HelperStarted(d.attempt.user, d'.attempt.path, d.autologin, owner.Some? && owner.value.fingerprint);
    BookKeepsBalance(d.log, Quiet(d.issued, None, owner), o);
    assert d'.log == d.log + [o];
    Watched(d'.log, Book(Quiet(d.issued, None, owner), o));
  }

  lemma BeginKeepsSound(d: Daemon, owner: Option<Request>, user: string, passPhrase: string,
                        session: SessionChoice, canReuse: bool)
    requires Balanced(d.log, Quiet(d.issued, None, owner))
    requires d.started && !d.ended && (d.serving ==> !d.autologin) && (d.greeterUp ==> d.serving)
    requires if owner.Some? then d.serving && owner.value.id < d.issued else d.autologin
    ensures Sound(Begin(d, owner, user, passPhrase, session, canReuse))
  {
    hide Balanced, Watch;
    var prepared := d.(attempt := Attempt.Attempt(user, passPhrase, session.exec, session.x11 && d.rootful));
    if canReuse {
      var d' := Begin(d, owner, user, passPhrase, session, canReuse);
      BookKeepsBalance(d.log, Quiet(d.issued, None, owner), ListSessions);
      Watched(d'.log, Quiet(d.issued, None, owner));
    } else {
      StartHelperKeepsSound(prepared, owner, None);
    }
  }

  // ---------- every event keeps the invariant ----------

  lemma Arrive(log: seq<Output>, a: Account, r: Request)
    requires Balanced(log, a) && a.arriving.None? && r.id == a.issued
    ensures Balanced(log, a.(issued := a.issued + 1, arriving := Some(r)))
  {
  }

  lemma Take(log: seq<Output>, a: Account)
    requires Balanced(log, a) && a.owner.None? && !a.accepted && a.arriving.Some?
    ensures Balanced(log, a.(arriving := None, owner := a.arriving))
  {
  }

  lemma RejectKeepsSound(d: Daemon, r: Request, o: Output)
    requires Sound(d) && d.serving && r.id == d.issued
    requires o == if r.fingerprint then FingerprintFinished(r) else LoginFailed(r)
    ensures Sound(Emit(d.(issued := d.issued + 1), [o]))
  {
    hide Balanced, Watch;
    var a := AccountOf(d);
    Watched(d.log, a);
    Arrive(d.log, a, r);
    a := a.(issued := a.issued + 1, arriving := Some(r));
    BookKeepsBalance(d.log, a, o);
    Watched(d.log + [o], Book(a, o));
  }

  lemma TakeKeepsBalance(d: Daemon, r: Request)
    requires Sound(d) && d.serving && d.phase.Idle? && r.id == d.issued
    ensures Balanced(d.log, Quiet(d.issued + 1, None, Some(r)))
  {
    hide Balanced, Watch;
    var a := AccountOf(d);
    Watched(d.log, a);
    Arrive(d.log, a, r);
    Take(d.log, a.(issued := a.issued + 1, arriving := Some(r)));
  }

  lemma NotBusyIsIdle(d: Daemon)
    requires WellFormed(d) && d.serving && !Busy(d.phase)
    ensures d.phase.Idle?
  {
  }

  lemma LoginKeepsSound(d: Daemon, request: Request, user: string, passPhrase: string,
                        session: SessionChoice, canReuse: bool)
    requires Sound(d) && Enabled(d, Login(request, user, passPhrase, session, canReuse))
    ensures Sound(OnLogin(d, request, user, passPhrase, session, canReuse))
  {
    hide Balanced, Watch;
    var before := d;
    if Cancellable(d.phase) {
      var o := QuietlyCancelled(Owner(d.phase).value);
      CancelAndSettleKeepsSound(d, o);
      before := Emit(CancelFingerprint(d), [o]);
    }
    var next := before.(issued := d.issued + 1);
    if Busy(before.phase) || user == "gxdm" || !session.Usable() {
      RejectKeepsSound(before, request, LoginFailed(request));
      assert OnLogin(d, request, user, passPhrase, session, canReuse) == Emit(next, [LoginFailed(request)]);
    } else {
      NotBusyIsIdle(before);
      TakeKeepsBalance(before, request);
      BeginKeepsSound(next, Some(request), user, passPhrase, session, canReuse);
      assert OnLogin(d, request, user, passPhrase, session, canReuse)
          == Begin(next, Some(request), user, passPhrase, session, canReuse);
    }
  }

  lemma FingerprintLoginKeepsSound(d: Daemon, request: Request, user: string, session: SessionChoice, canReuse: bool)
    requires Sound(d) && Enabled(d, FingerprintLogin(request, user, session, canReuse))
    ensures Sound(OnFingerprintLogin(d, request, user, session, canReuse))
  {
    hide Balanced, Watch;
    if Busy(d.phase) || user == "" || user == "gxdm" || !session.Usable() {
      RejectKeepsSound(d, request, FingerprintFinished(request));
    } else {
      NotBusyIsIdle(d);
      TakeKeepsBalance(d, request);
      BeginKeepsSound(d.(issued := d.issued + 1), Some(request), user, "", session, canReuse);
    }
  }

  lemma ServeKeepsSound(d: Daemon)
    requires Sound(d) && !d.ended && !d.autologin
    ensures Sound(Serve(d))
  {
    hide Balanced, Watch;
    var a := AccountOf(d);
    Watched(d.log, a);
    BookKeepsBalance(d.log, a, GreeterStarted);
    Watched(d.log + [GreeterStarted], a);
  }

  lemma StartServerKeepsSound(d: Daemon)
    requires Sound(d) && !d.ended
    ensures Sound(Emit(d, [StartDisplayServer]))
  {
    hide Balanced, Watch;
    var a := AccountOf(d);
    Watched(d.log, a);
    BookKeepsBalance(d.log, a, StartDisplayServer);
    Watched(d.log + [StartDisplayServer], a);
  }

  /** An automatic login is only tried on a display at rest. */
  lemma AutologinKeepsSound(d: Daemon, plan: AutologinPlan)
    requires Sound(d) && d.phase.Idle? && !d.ended && !d.started
    ensures TryAutologin(d.(started := true), plan).1 ==> Sound(TryAutologin(d.(started := true), plan).0)
  {
    hide Balanced, Watch;
    Watched(d.log, AccountOf(d));
    if plan.AutologinAs? && plan.session.Usable() {
      BeginKeepsSound(d.(started := true, autologin := true), None, plan.user, "", plan.session, plan.canReuse);
    }
  }

  lemma StartDisplayKeepsSound(d: Daemon, plan: AutologinPlan)
    requires Sound(d) && Enabled(d, StartDisplay(plan))
    ensures Sound(OnStartDisplay(d, plan))
  {
    hide Balanced, Watch;
    if !d.started {
      AutologinKeepsSound(d, plan);
      StartServerKeepsSound(d);
      StartServerKeepsSound(d.(autologin := false));
    }
  }

  lemma ServerReadyKeepsSound(d: Daemon, plan: AutologinPlan)
    requires Sound(d) && Enabled(d, ServerReady(plan))
    ensures Sound(OnServerReady(d, plan))
  {
    hide Balanced, Watch;
    if !d.started {
      if d.rootful && !plan.NotRequested? {
        AutologinKeepsSound(d, plan);
        if !TryAutologin(d.(started := true), plan).1 {
          ServeKeepsSound(d.(autologin := false));
          assert OnServerReady(d, plan) == Serve(d.(autologin := false));
        }
      } else {
        ServeKeepsSound(d);
      }
    }
  }

  lemma FinishLookupKeepsSound(d: Daemon, found: Option<string>)
    requires Sound(d) && d.phase.LookingUp?
    ensures Sound(FinishLookup(d, found))
  {
    hide Balanced, Watch;
    Watched(d.log, AccountOf(d));
    StartHelperKeepsSound(d, d.phase.owner, found);
  }

  lemma BookQueries(log: seq<Output>, a: Account, entries: seq<SessionEntry>)
    requires Balanced(log, a) && a.monitor.Watching? && a.monitor.gate.Off?
    ensures Balanced(log + PropertyQueries(entries), a)
  {
    hide Balanced, Watch;
    if entries == [] {
      assert log + PropertyQueries(entries) == log;
    } else {
      var n := |entries| - 1;
      var most := entries[..n];
      BookQueries(log, a, most);
      BookKeepsBalance(log + PropertyQueries(most), a, GetProperties(entries[n].id));
      assert PropertyQueries(entries) == PropertyQueries(most) + [GetProperties(entries[n].id)];
      assert log + PropertyQueries(entries) == log + PropertyQueries(most) + [GetProperties(entries[n].id)];
    }
  }

  lemma QueriesKeepSound(d: Daemon, candidates: seq<SessionEntry>)
    requires Sound(d) && d.phase.LookingUp? && d.phase.search.Listing? && candidates != []
    ensures Sound(Emit(d.(phase := LookingUp(d.phase.owner,
                                             Collecting(d.phase.search.sessionType, multiset(candidates)))),
                       PropertyQueries(candidates)))
  {
    hide Balanced, Watch;
    BookQueries(d.log, AccountOf(d), candidates);
    Watched(d.log + PropertyQueries(candidates), AccountOf(d));
    assert candidates[0] in multiset(candidates);
  }

  lemma SessionsListedKeepsSound(d: Daemon, reply: Option<seq<SessionEntry>>)
    requires Sound(d) && Enabled(d, SessionsListed(reply))
    ensures Sound(OnSessionsListed(d, reply))
  {
    hide Balanced, Watch;
    var candidates := if reply.Some? then Candidates(reply.value, d.phase.search.user) else [];
    if candidates == [] {
      FinishLookupKeepsSound(d, None);
    } else {
      QueriesKeepSound(d, candidates);
    }
  }

  lemma PropertiesReadKeepsSound(d: Daemon, entry: SessionEntry, properties: Option<Properties>)
    requires Sound(d) && Enabled(d, PropertiesRead(entry, properties))
    ensures Sound(OnPropertiesRead(d, entry, properties))
  {
    hide Balanced, Watch, FinishLookup;
    if properties.Some? && CanReuse(properties.value, d.phase.search.sessionType) {
      FinishLookupKeepsSound(d, Some(entry.id));
    } else if d.phase.search.waiting - multiset{entry} == multiset{} {
      FinishLookupKeepsSound(d, None);
    }
  }

  /** A message that changes neither the phase nor the books. */
  lemma RemarkKeepsSound(d: Daemon, o: Output)
    requires Sound(d)
    requires HelperAlive(d.phase)
    requires o.Information? || o.FingerprintRejected? || (o.SendReply? && o.reply.PromptReply?)
    ensures Sound(Emit(d, [o]))
  {
    hide Balanced, Watch;
    var a := AccountOf(d);
    Watched(d.log, a);
    BookKeepsBalance(d.log, a, o);
    Watched(d.log + [o], a);
  }

  lemma ReleaseKeepsSound(d: Daemon, owner: Option<Request>, reuse: Option<string>)
    requires d.attempt.Attempt? && d.started && !d.ended && (d.serving ==> !d.autologin) && (d.greeterUp ==> d.serving)
    requires if owner.Some? then d.serving && owner.value.id < d.issued else d.autologin
    requires Balanced(d.log, Account(d.issued, None, owner, owner.Some?, Watching(Cleared, reuse.None?)))
    ensures Sound(Release(d, owner, reuse))
  {
    hide Balanced, Watch;
    var a := Account(d.issued, None, owner, owner.Some?, Watching(Cleared, reuse.None?));
    var d' := Release(d, owner, reuse);
    if reuse.Some? {
      BookTwo(d.log, a, UnlockSession(reuse.value), SendReply(AuthenticatedReply));
    } else {
      BookKeepsBalance(d.log, a, SendReply(AuthenticatedReply));
    }
    Watched(d'.log, a.(monitor := Watching(Released, reuse.None?)));
  }

  lemma BookRegistration(log: seq<Output>, a: Account, reuse: Option<string>)
    requires Balanced(log, a) && a.monitor.Watching? && !a.monitor.gate.Off? && !a.monitor.registered
    ensures Balanced(log + (if reuse.None? then [SessionRegistered] else []),
                     a.(monitor := a.monitor.(registered := reuse.None?)))
  {
    hide Balanced, Watch;
    if reuse.None? {
      BookKeepsBalance(log, a, SessionRegistered);
    } else {
      assert log + [] == log;
    }
  }

  lemma HoldKeepsSound(d: Daemon, owner: Option<Request>, reuse: Option<string>, preserve: bool)
    requires d.attempt.Attempt? && d.started && !d.ended && (d.serving ==> !d.autologin) && (d.greeterUp ==> d.serving)
    requires owner.Some? && d.serving && owner.value.id < d.issued
    requires Balanced(d.log, Account(d.issued, None, owner, true, Watching(Cleared, false)))
    ensures Sound(Emit(d.(phase := Held(owner, reuse)),
                       [PrepareTransition(owner.value, preserve)] + (if reuse.None? then [SessionRegistered] else [])))
  {
    hide Balanced, Watch;
    var a := Account(d.issued, None, owner, true, Watching(Cleared, false));
    var o := PrepareTransition(owner.value, preserve);
    BookKeepsBalance(d.log, a, o);
    a := a.(monitor := Watching(Waiting, false));
    BookRegistration(d.log + [o], a, reuse);
    var registration := if reuse.None? then [SessionRegistered] else [];
    assert d.log + ([o] + registration) == d.log + [o] + registration;
    Watched(d.log + ([o] + registration), a.(monitor := Watching(Waiting, reuse.None?)));
  }

  lemma AcceptedKeepsSound(d: Daemon, user: string)
    requires Sound(d) && d.phase.Proving?
    ensures Sound(OnAccepted(d, user))
  {
    hide Balanced, Watch;
    var a := AccountOf(d);
    Watched(d.log, a);
    var (owner, reuse) := (d.phase.owner, d.phase.reuse);
    BookKeepsBalance(d.log, a, PamAccepted(owner));
    a := Account(d.issued, None, owner, owner.Some?, Watching(Cleared, false));
    var d1 := Emit(d.(attempt := d.attempt.(user := user)), [PamAccepted(owner)]);
    if owner.Some? && owner.value.socket in d.transitions {
      HoldKeepsSound(d1, owner, reuse, d.attempt.sharedX11 && reuse.None?);
    } else {
      BookRegistration(d1.log, a, reuse);
      ReleaseKeepsSound(Emit(d1, if reuse.None? then [SessionRegistered] else []), owner, reuse);
    }
  }

  lemma RefusedKeepsSound(d: Daemon)
    requires Sound(d) && d.phase.Proving?
    ensures Sound(OnRefused(d))
  {
    hide Balanced, Watch;
    var a := AccountOf(d);
    Watched(d.log, a);
    if d.autologin {
      var o := if d.rootful then GreeterStarted else StartDisplayServer;
      BookKeepsBalance(d.log, a, o);
      Watched(d.log + [o], a);
    } else {
      BookFailure(d.log, a, d.phase);
      Watched(d.log + Failure(d.phase), a.(owner := None, accepted := false));
    }
  }

  lemma SessionOpenedKeepsSound(d: Daemon)
    requires Sound(d) && (d.phase.Opening? || d.phase == Detached(true)) && Watch(d.log).gate.Released?
    ensures Sound(Emit(d.(phase := Detached(true), greeterUp := false),
                       Success(d.phase) + if d.greeterUp then [GreeterStopped] else []))
  {
    hide Balanced, Watch;
    var a := AccountOf(d);
    Watched(d.log, a);
    var p := d.phase;
    var settled := a.(owner := None, accepted := false);
    if p.Opening? {
      BookSuccess(d.log, a, p);
    } else {
      assert d.log + Success(p) == d.log;
    }
    if d.greeterUp {
      BookKeepsBalance(d.log + Success(p), settled, GreeterStopped);
      assert d.log + (Success(p) + [GreeterStopped]) == d.log + Success(p) + [GreeterStopped];
    } else {
      assert d.log + (Success(p) + []) == d.log + Success(p);
    }
    Watched(d.log + (Success(p) + if d.greeterUp then [GreeterStopped] else []), settled);
  }

  lemma SessionFailedKeepsSound(d: Daemon)
    requires Sound(d) && (d.phase.Opening? || d.phase == Detached(true))
    ensures Sound(Emit(d.(phase := Detached(false)), Failure(d.phase) + Unregistration(d.phase)))
  {
    hide Balanced, Watch;
    var a := AccountOf(d);
    Watched(d.log, a);
    var p := d.phase;
    BookFailure(d.log, a, p);
    var settled := a.(owner := None, accepted := false);
    BookUnregistration(d.log + Failure(p), settled, p);
    assert d.log + (Failure(p) + Unregistration(p)) == d.log + Failure(p) + Unregistration(p);
    Watched(d.log + (Failure(p) + Unregistration(p)), settled.(monitor := settled.monitor.(registered := false)));
  }

  lemma SessionStatusKeepsSound(d: Daemon, ok: bool)
    requires Sound(d) && Enabled(d, HelperSays(SessionStatus(ok)))
    ensures Sound(OnSessionStatus(d, ok))
  {
    hide Balanced, Watch;
    var a := AccountOf(d);
    Watched(d.log, a);
    var d1 := Emit(d, [SendReply(SessionStatusReply)]);
    BookKeepsBalance(d.log, a, SendReply(SessionStatusReply));
    Watched(d1.log, a);
    if ok {
      SessionOpenedKeepsSound(d1);
    } else {
      SessionFailedKeepsSound(d1);
    }
  }

  lemma HelperSaysKeepsSound(d: Daemon, message: HelperMessage)
    requires Sound(d) && Enabled(d, HelperSays(message))
    ensures Sound(OnHelperSays(d, message))
  {
    hide Balanced, Watch;
    var owner := Owner(d.phase);
    match message
    case Info(text) =>
      if owner.Some? { RemarkKeepsSound(d, Information(owner.value, text)); }
    case Error(text, kind) =>
      if owner.Some? {
        RemarkKeepsSound(d, Information(owner.value, text));
        RemarkKeepsSound(d, FingerprintRejected(owner.value, text));
      }
    case PromptRequest(prompts) =>
      var answers := Answers(prompts, d.attempt.user, d.attempt.passPhrase);
      if answers.Some? { RemarkKeepsSound(d, SendReply(PromptReply(answers.value))); }
    case Authenticated(user) =>
      if user != "" { AcceptedKeepsSound(d, user); } else { RefusedKeepsSound(d); }
    case SessionStatus(ok) => SessionStatusKeepsSound(d, ok);
  }

  lemma CompleteTransitionKeepsSound(d: Daemon)
    requires Sound(d) && d.phase.Held?
    ensures Sound(CompleteTransition(d))
  {
    hide Balanced, Watch;
    var a := AccountOf(d);
    Watched(d.log, a);
    BookKeepsBalance(d.log, a, TransitionOver);
    ReleaseKeepsSound(Emit(d, [TransitionOver]), d.phase.owner, d.phase.reuse);
  }

  lemma BookResult(d: Daemon, result: seq<Output>)
    requires Sound(d) && d.phase.Activating? && (result == Success(d.phase) || result == Failure(d.phase))
    ensures Balanced(d.log + result, AccountOf(d).(owner := None, accepted := false))
    ensures Watch(d.log + result) == Watch(d.log)
  {
    hide Balanced, Watch;
    var a := AccountOf(d);
    if result == Success(d.phase) { BookSuccess(d.log, a, d.phase); } else { BookFailure(d.log, a, d.phase); }
    Watched(d.log + result, a.(owner := None, accepted := false));
  }

  lemma FinishActivationKeepsSound(d: Daemon, ok: bool)
    requires Sound(d) && d.phase.Activating?
    ensures Sound(FinishActivation(d, ok))
  {
    hide Balanced, Watch, StopDisplay, Success, Failure;
    var result := if ok then Success(d.phase) else Failure(d.phase);
    BookResult(d, result);
    if !d.phase.helperAlive {
      StopKeepsSound(Rest(Emit(d, result)));
    }
  }

  lemma UnlockAnsweredKeepsSound(d: Daemon, ok: bool)
    requires Sound(d) && d.phase.Activating?
    ensures Sound(OnUnlockAnswered(d, ok))
  {
    hide Balanced, Watch;
    if ok {
      var a := AccountOf(d);
      Watched(d.log, a);
      BookKeepsBalance(d.log, a, ActivateSession(d.phase.sid));
      Watched(d.log + [ActivateSession(d.phase.sid)], a);
    } else {
      FinishActivationKeepsSound(d, false);
    }
  }

  lemma ExitBalances(log: seq<Output>, a: Account, p: Phase, notice: seq<Output>)
    requires Balanced(log, a) && a.monitor.Watching? && HelperAlive(p) && !a.monitor.gate.Off?
    requires a.monitor.registered == Registered(p)
    requires notice == [] || (|notice| == 2 && notice[0].Information? && notice[1].Information?)
    ensures Balanced(log + ([HelperEnded] + notice + Unregistration(p)), a.(monitor := Watching(Off, false)))
  {
    hide Balanced, Watch;
    BookKeepsBalance(log, a, HelperEnded);
    var a := a.(monitor := a.monitor.(gate := Off));
    if notice != [] {
      BookKeepsBalance(log + [HelperEnded], a, notice[0]);
      BookKeepsBalance(log + [HelperEnded] + [notice[0]], a, notice[1]);
      assert log + [HelperEnded] + notice == log + [HelperEnded] + [notice[0]] + [notice[1]];
    } else {
      assert log + [HelperEnded] + notice == log + [HelperEnded];
    }
    BookUnregistration(log + [HelperEnded] + notice, a, p);
    assert log + ([HelperEnded] + notice + Unregistration(p)) == log + [HelperEnded] + notice + Unregistration(p);
  }

  lemma BuryBalances(d: Daemon, how: HelperExit)
    requires Sound(d) && HelperAlive(d.phase)
    ensures Balanced(Bury(d, how).log, AccountOf(d).(monitor := Watching(Off, false)))
    ensures Watch(Bury(d, how).log) == Watching(Off, false)
  {
    hide Balanced, Watch;
    var a := AccountOf(d);
    Watched(d.log, a);
    ExitBalances(d.log, a, d.phase, Notice(d.phase, how));
    Watched(Bury(d, how).log, a.(monitor := Watching(Off, false)));
  }

  lemma RestKeepsSound(d: Daemon, buried: Daemon)
    requires WellFormed(d) && !d.phase.Activating? && HelperAlive(d.phase) && buried == d.(log := buried.log)
    requires Balanced(buried.log, AccountOf(d).(monitor := Watching(Off, false)))
    ensures Sound(Rest(Emit(buried, Failure(d.phase))))
  {
    hide Balanced, Watch;
    BookFailure(buried.log, AccountOf(d).(monitor := Watching(Off, false)), d.phase);
    Watched(buried.log + Failure(d.phase), Quiet(d.issued, None, None));
  }

  lemma HelperExitsKeepsSound(d: Daemon, how: HelperExit)
    requires Sound(d) && HelperAlive(d.phase)
    ensures Sound(OnHelperExits(d, how))
  {
    hide Balanced, Watch, StopDisplay, Failure;
    BuryBalances(d, how);
    if !d.phase.Activating? {
      RestKeepsSound(d, Bury(d, how));
      StopKeepsSound(Rest(Emit(Bury(d, how), Failure(d.phase))));
    }
  }

  lemma StepKeepsSound(d: Daemon, e: Event)
    requires Sound(d) && Enabled(d, e)
    ensures Sound(Step(d, e))
  {
    hide Balanced, Watch;
    match e
    case StartDisplay(plan) => StartDisplayKeepsSound(d, plan);
    case ServerReady(plan) => ServerReadyKeepsSound(d, plan);
    case EnableTransitions(_) =>
    case Login(r, user, passPhrase, session, canReuse) => LoginKeepsSound(d, r, user, passPhrase, session, canReuse);
    case FingerprintLogin(r, user, session, canReuse) => FingerprintLoginKeepsSound(d, r, user, session, canReuse);
    case FingerprintCancel(socket) =>
      if Cancellable(d.phase) { CancelAndSettleKeepsSound(d, QuietlyCancelled(Owner(d.phase).value)); }
    case PromptCancelFires =>
      if Cancellable(d.phase) {
        CancelAndSettleKeepsSound(d.(promptCancels := d.promptCancels - 1), FingerprintFinished(Owner(d.phase).value));
      }
    case SessionsListed(reply) => SessionsListedKeepsSound(d, reply);
    case PropertiesRead(entry, properties) => PropertiesReadKeepsSound(d, entry, properties);
    case LookupTimeout => FinishLookupKeepsSound(d, None);
    case HelperSays(message) => HelperSaysKeepsSound(d, message);
    case TransitionReady(_) => if d.phase.Held? { CompleteTransitionKeepsSound(d); }
    case TransitionTimeout => CompleteTransitionKeepsSound(d);
    case UnlockAnswered(ok) => UnlockAnsweredKeepsSound(d, ok);
    case SwitchAnswered(ok) => FinishActivationKeepsSound(d, ok);
    case ActivationTimeout => FinishActivationKeepsSound(d, false);
    case HelperExits(how) => HelperExitsKeepsSound(d, how);
    case Stop => StopKeepsSound(d);
  }

  // ---------- the theorems ----------

  lemma {:induction false} RunKeepsSound(d: Daemon, events: seq<Event>)
    requires Sound(d) && Feasible(d, events)
    ensures Sound(Run(d, events))
    decreases |events|
  {
    if events != [] {
      StepKeepsSound(d, events[0]);
      RunKeepsSound(Step(d, events[0]), events[1..]);
    }
  }

  lemma InitialIsSound(rootful: bool)
    ensures Sound(Initial(rootful))
  {
  }

  predicate Outstanding(d: Daemon, id: nat) {
    Owner(d.phase).Some? && Owner(d.phase).value.id == id
  }

  /** Every request gets exactly one result: one as soon as it is no longer outstanding, none before. */
  lemma ExactlyOneResult(rootful: bool, events: seq<Event>, id: nat)
    requires Feasible(Initial(rootful), events)
    ensures var d := Run(Initial(rootful), events);
      Settlements(d.log, id) == if id < d.issued && !Outstanding(d, id) then 1 else 0
  {
    InitialIsSound(rootful);
    RunKeepsSound(Initial(rootful), events);
    var d := Run(Initial(rootful), events);
    assert Balanced(d.log, AccountOf(d));
  }

  /** No result contradicts what PAM had said by then, and the watchman never raises the alarm. */
  lemma ResultsAreJustified(rootful: bool, events: seq<Event>)
    requires Feasible(Initial(rootful), events)
    ensures var log := Run(Initial(rootful), events).log;
      AllJustified(log) && !Watch(log).Alarm?
  {
    InitialIsSound(rootful);
    RunKeepsSound(Initial(rootful), events);
  }

  predicate HelperTurn(o: Output) {
    o.HelperStarted? || o.HelperEnded? || o == SendReply(AuthenticatedReply)
  }

  /** A quiet watchman means that the prefix was watched quietly as well. */
  lemma {:induction false} QuietPrefix(log: seq<Output>, n: nat)
    requires n <= |log| && !Watch(log).Alarm?
    ensures !Watch(log[..n]).Alarm?
  {
    if n < |log| {
      QuietPrefix(log[..|log| - 1], n);
      assert log[..|log| - 1][..n] == log[..n];
    } else {
      assert log[..n] == log;
    }
  }

  predicate ClearedAt(log: seq<Output>, i: nat)
    requires i < |log|
  {
    && log[i].PamAccepted?
    && (forall k | i < k < |log| :: !HelperTurn(log[k]))
    && (forall k | i < k < |log| && log[k].PrepareTransition? :: TransitionOver in log[k..])
  }

  lemma {:induction false} ClearedSince(log: seq<Output>) returns (i: nat)
    requires Watch(log).Watching? && (Watch(log).gate.Cleared? || Watch(log).gate.Waiting?)
    ensures i < |log| && log[i].PamAccepted? && (forall k | i < k < |log| :: !HelperTurn(log[k]))
    ensures Watch(log).gate.Cleared? ==> ClearedAt(log, i)
  {
    var n := |log| - 1;
    var past := log[..n];
    if log[n].PamAccepted? {
      i := n;
    } else {
      i := ClearedSince(past);
      if Watch(log).gate.Cleared? {
        forall k | i < k < |log| && log[k].PrepareTransition? ensures TransitionOver in log[k..] {
          if log[n] == TransitionOver {
            assert log[k..][n - k] == TransitionOver;
          } else {
            assert TransitionOver in past[k..];
            assert past[k..] <= log[k..];
          }
        }
      }
    }
  }

  /** The reply that lets the helper open the session is sent at most once per helper, only after
      this helper's PAM accepted, and never while the greeter still animates. */
  lemma HelperReleasedOnlyWhenCleared(rootful: bool, events: seq<Event>, j: nat)
    requires Feasible(Initial(rootful), events)
    requires j < |Run(Initial(rootful), events).log|
    requires Run(Initial(rootful), events).log[j] == SendReply(AuthenticatedReply)
    ensures exists i: nat | i < j :: ClearedAt(Run(Initial(rootful), events).log[..j], i)
  {
    var log := Run(Initial(rootful), events).log;
    ResultsAreJustified(rootful, events);
    QuietPrefix(log, j + 1);
    assert log[..j + 1][..j] == log[..j];
    var i := ClearedSince(log[..j]);
  }
}
