/** Listening for a finger: a probe, then authentication runs that are restarted as long as they
    fail slowly. The runs are those of the lock screen, each with an Auth object of its own. */
module FingerprintSession {
  import opened LoginTypes

  datatype State = Idle | Probing | Listening | GaveUp | Unavailable

  /** What the session does to the outside, with the time where it matters. */
  datatype Act =
    | ProbeAsked(user: string)
    | ProbeAccepted
    | RunStarted(user: string, at: nat)
    | RunStopped
    | FailedSlowly

  /** The fields of the session. `auth` is the live run; `made` numbers the Auth objects. */
  datatype Session = Session(
    quickFailureMs: nat, state: State, user: string, rejections: nat, sinceEvent: nat,
    auth: Option<nat>, made: nat, log: seq<Act>)

  datatype Event =
    | Start(user: string)
    | Stop
    | ProbeFinished(user: string, available: bool)
    | RunRejected(run: nat)
    | RunPrompts(run: nat)
    | RunFinished(run: nat, matched: bool)

  // ---------- the steps ----------

  function Begin(s: Session, now: nat): Session {
    s.(rejections := 0, sinceEvent := now, state := Listening, auth := Some(s.made), made := s.made + 1,
       log := s.log + [RunStarted(s.user, now)])
  }

  function Cease(s: Session): Session {
    if s.auth.None? then s else s.(auth := None, log := s.log + [RunStopped])
  }

  function OnStop(s: Session): Session {
    if s.state.Listening? then Cease(s).(state := Idle)
    else if s.state.Probing? then s.(state := Idle)
    else s
  }

  function OnStart(s: Session, user: string): Session {
    if user == "" || (user == s.user && (s.state.Probing? || s.state.Listening?)) then s
    else
      var s := OnStop(s);
      s.(user := user, state := Probing, log := s.log + [ProbeAsked(user)])
  }

  function OnProbeFinished(s: Session, user: string, available: bool, now: nat): Session {
    if !s.state.Probing? || user != s.user then s
    else if !available then s.(state := Unavailable)
    else Begin(s.(log := s.log + [ProbeAccepted]), now)
  }

  /** A result of the live run; `now` is not before the last event of that run. */
  function OnFinished(s: Session, matched: bool, now: nat): Session {
    var s1 := Cease(s);
    if matched then s1.(state := Idle)
    else if now - s.sinceEvent >= s.quickFailureMs then Begin(s1.(log := s1.log + [FailedSlowly]), now)
    else if s.rejections > 0 then s1.(state := GaveUp)
    else s1.(state := Unavailable)
  }

  function Step(s: Session, e: Event, now: nat): Session {
    match e
    case Start(user) => OnStart(s, user)
    case Stop => OnStop(s)
    case ProbeFinished(user, available) => OnProbeFinished(s, user, available, now)
    case RunRejected(run) =>
      if s.auth == Some(run) && s.state.Listening? then s.(rejections := s.rejections + 1, sinceEvent := now) else s
    case RunPrompts(run) =>
      if s.auth == Some(run) && s.state.Listening? then Cease(s).(state := Unavailable) else s
    case RunFinished(run, matched) =>
      if s.auth == Some(run) && s.state.Listening? then OnFinished(s, matched, now) else s
  }

  function Initial(quickFailureMs: nat): Session {
    Session(quickFailureMs, Idle, "", 0, 0, None, 0, [])
  }

  // ---------- the watchman ----------

  /** What the next run may be started for. */
  datatype Permit = NoPermit | AfterProbe | AfterSlowFailure

  /** Counts the runs and times the listening episode since the last accepted probe. */
  datatype Watch =
    | Alarm
    | Watch(live: Option<string>, wanted: string, permit: Permit,
            runs: nat, accepted: nat, slow: nat, first: nat, last: nat, restarts: nat)

  function Observe(quick: nat, w: Watch, act: Act): Watch {
    if w.Alarm? then Alarm else
    match act
    case ProbeAsked(user) => if w.live.None? then w.(wanted := user, permit := NoPermit) else Alarm
    case ProbeAccepted => if w.live.None? then w.(permit := AfterProbe, accepted := w.accepted + 1) else Alarm
    case FailedSlowly => if w.live.None? && w.permit.NoPermit? then w.(permit := AfterSlowFailure, slow := w.slow + 1)
        else Alarm
    case RunStopped => if w.live.Some? then w.(live := None) else Alarm
    case RunStarted(user, at) =>
      if w.live.Some? || user != w.wanted then Alarm
      else if w.permit.AfterProbe? then
        w.(live := Some(user), permit := NoPermit, runs := w.runs + 1, first := at, last := at, restarts := 0)
      else if w.permit.AfterSlowFailure? && at >= w.last + quick then
        w.(live := Some(user), permit := NoPermit, runs := w.runs + 1, last := at, restarts := w.restarts + 1)
      else Alarm
  }

  function WatchOver(quick: nat, log: seq<Act>): Watch {
    if log == [] then Watch(None, "", NoPermit, 0, 0, 0, 0, 0, 0)
    else Observe(quick, WatchOver(quick, log[..|log| - 1]), log[|log| - 1])
  }

  lemma WatchMore(quick: nat, log: seq<Act>, act: Act)
    ensures WatchOver(quick, log + [act]) == Observe(quick, WatchOver(quick, log), act)
  {
    assert (log + [act])[..|log|] == log;
  }

  // ---------- the invariant ----------

  ghost predicate Sound(s: Session, now: nat) {
    var w := WatchOver(s.quickFailureMs, s.log);
    && w.Watch? && w.permit.NoPermit?
    && w.live == (if s.state.Listening? then Some(s.user) else None)
    && (s.auth.Some? <==> s.state.Listening?)
    && (s.auth.Some? ==> s.auth.value == s.made - 1)
    && w.runs == s.made == w.accepted + w.slow
    && (s.state.Probing? || s.state.Listening? ==> w.wanted == s.user)
    && w.last <= s.sinceEvent <= now
    && w.last >= w.first + w.restarts * s.quickFailureMs
  }

  lemma StopKeepsSound(s: Session, now: nat)
    requires Sound(s, now)
    ensures Sound(OnStop(s), now) && !OnStop(s).state.Listening? && !OnStop(s).state.Probing?
  {
    if s.auth.Some? { WatchMore(s.quickFailureMs, s.log, RunStopped); }
  }

  /** A run begins on a log that permits it. */
  lemma BeginKeepsSound(s: Session, now: nat)
    requires s.auth.None? && s.sinceEvent <= now
    requires var w := WatchOver(s.quickFailureMs, s.log);
      && w.Watch? && w.live.None? && w.wanted == s.user && w.runs == s.made && w.accepted + w.slow == w.runs + 1
      && w.last >= w.first + w.restarts * s.quickFailureMs && w.last <= s.sinceEvent
      && (w.permit.AfterProbe? || (w.permit.AfterSlowFailure? && now >= w.last + s.quickFailureMs))
    ensures Sound(Begin(s, now), now)
  {
    WatchMore(s.quickFailureMs, s.log, RunStarted(s.user, now));
    var w := WatchOver(s.quickFailureMs, s.log);
    assert (w.restarts + 1) * s.quickFailureMs == w.restarts * s.quickFailureMs + s.quickFailureMs;
  }

  lemma FinishedKeepsSound(s: Session, matched: bool, now: nat)
    requires Sound(s, now) && s.state.Listening?
    ensures Sound(OnFinished(s, matched, now), now)
  {
    var s1 := Cease(s);
    WatchMore(s.quickFailureMs, s.log, RunStopped);
    WatchMore(s.quickFailureMs, s1.log, FailedSlowly);
    if !matched && now - s.sinceEvent >= s.quickFailureMs {
      BeginKeepsSound(s1.(log := s1.log + [FailedSlowly]), now);
    }
  }

  lemma ProbeKeepsSound(s: Session, user: string, available: bool, now: nat)
    requires Sound(s, now)
    ensures Sound(OnProbeFinished(s, user, available, now), now)
  {
    if s.state.Probing? && user == s.user && available {
      WatchMore(s.quickFailureMs, s.log, ProbeAccepted);
      BeginKeepsSound(s.(log := s.log + [ProbeAccepted]), now);
    }
  }

  lemma StartKeepsSound(s: Session, user: string, now: nat)
    requires Sound(s, now)
    ensures Sound(OnStart(s, user), now)
  {
    StopKeepsSound(s, now);
    WatchMore(s.quickFailureMs, OnStop(s).log, ProbeAsked(user));
  }

  /** Every event keeps the invariant, results of runs that have been replaced included. */
  lemma StepKeepsSound(s: Session, e: Event, now: nat)
    requires Sound(s, now)
    ensures Sound(Step(s, e, now), now)
  {
    match e
    case Start(user) => StartKeepsSound(s, user, now);
    case Stop => StopKeepsSound(s, now);
    case ProbeFinished(user, available) => ProbeKeepsSound(s, user, available, now);
    case RunRejected(_) =>
    case RunPrompts(_) => WatchMore(s.quickFailureMs, s.log, RunStopped);
    case RunFinished(run, matched) =>
      if s.auth == Some(run) { FinishedKeepsSound(s, matched, now); }
  }

  // ---------- whole histories ----------

  /** Events with their times, in order of time. */
  predicate InOrder(history: seq<(Event, nat)>, from: nat) {
    history == [] || (history[0].1 >= from && InOrder(history[1..], history[0].1))
  }

  function After(s: Session, history: seq<(Event, nat)>): Session
    decreases |history|
  {
    if history == [] then s else After(Step(s, history[0].0, history[0].1), history[1..])
  }

  lemma {:induction false} HistoryKeepsSound(s: Session, history: seq<(Event, nat)>, now: nat) returns (end: nat)
    requires Sound(s, now) && InOrder(history, now)
    ensures end == if history == [] then now else history[|history| - 1].1
    ensures Sound(After(s, history), end) && After(s, history).quickFailureMs == s.quickFailureMs
    decreases |history|
  {
    end := now;
    if history != [] {
      assert Sound(s, history[0].1);
      StepKeepsSound(s, history[0].0, history[0].1);
      end := HistoryKeepsSound(Step(s, history[0].0, history[0].1), history[1..], history[0].1);
    }
  }

  /** Whatever happens: runs start and stop in turn, one is live exactly while the session listens,
      and for its user; there are as many runs as accepted probes and slow failures; and an episode
      with n restarts has lasted n times the quick-failure time by the last of them. */
  lemma RunsAreOrderly(quickFailureMs: nat, history: seq<(Event, nat)>)
    requires InOrder(history, 0)
    ensures var s := After(Initial(quickFailureMs), history);
      var w := WatchOver(quickFailureMs, s.log);
      && w.Watch?
      && w.live == (if s.state.Listening? then Some(s.user) else None)
      && (s.auth.Some? <==> s.state.Listening?)
      && w.runs == w.accepted + w.slow
      && w.last - w.first >= w.restarts * quickFailureMs
  {
    var end := HistoryKeepsSound(Initial(quickFailureMs), history, 0);
  }

  /** Started and stopped runs in a log. */
  function Live(log: seq<Act>): int {
    if log == [] then 0
    else Live(log[..|log| - 1]) + match log[|log| - 1]
      case RunStarted(_, _) => 1
      case RunStopped => -1
      case _ => 0
  }

  /** A watchman without alarm has seen the runs start and stop strictly in turn. */
  lemma {:induction false} InTurn(quick: nat, log: seq<Act>, n: nat)
    requires WatchOver(quick, log).Watch? && n <= |log|
    ensures Live(log[..n]) == 0 || Live(log[..n]) == 1
    ensures n == |log| ==> (Live(log) == 1 <==> WatchOver(quick, log).live.Some?)
  {
    if log != [] {
      var init := log[..|log| - 1];
      InTurn(quick, init, if n < |log| then n else |init|);
      InTurn(quick, init, |init|);
      assert init[..|init|] == init && log[..|log|] == log;
      if n < |log| { assert log[..n] == init[..n]; }
    } else {
      assert log[..n] == [];
    }
  }

  /** A session that gave up, found no reader or was stopped does nothing until it is started, and
      listens only when the probe of that start has succeeded. */
  lemma DormantUntilStarted(s: Session, e: Event, now: nat)
    requires Sound(s, now) && !s.state.Probing? && !s.state.Listening?
    ensures !e.Start? ==> Step(s, e, now) == s
    ensures e.Start? ==> Step(s, e, now).made == s.made && !Step(s, e, now).state.Listening?
  {
  }

  lemma OnlyAnAcceptedProbeBegins(s: Session, e: Event, now: nat)
    requires Sound(s, now) && !s.state.Listening?
    ensures Step(s, e, now).state.Listening? <==> s.state.Probing? && e == ProbeFinished(s.user, true)
    ensures Step(s, e, now).made == s.made + if Step(s, e, now).state.Listening? then 1 else 0
  {
  }

  /** Results of a run that is no longer the live one change nothing. */
  lemma LateResultsAreIgnored(s: Session, run: nat, matched: bool, now: nat)
    requires s.auth != Some(run)
    ensures Step(s, RunFinished(run, matched), now) == Step(s, RunRejected(run), now)
         == Step(s, RunPrompts(run), now) == s
  {
  }

  // ---------- how a run ends ----------

  lemma {:induction false} AfterMore(s: Session, history: seq<(Event, nat)>, x: (Event, nat))
    ensures After(s, history + [x]) == Step(After(s, history), x.0, x.1)
    decreases |history|
  {
    if history == [] {
      assert [] + [x] == [x] && [x][1..] == [];
    } else {
      assert (history + [x])[1..] == history[1..] + [x];
      AfterMore(Step(s, history[0].0, history[0].1), history[1..], x);
    }
  }

  lemma {:induction false} InOrderPrefix(history: seq<(Event, nat)>, x: (Event, nat), from: nat)
    requires InOrder(history + [x], from)
    ensures InOrder(history, from) && x.1 >= (if history == [] then from else history[|history| - 1].1)
    decreases |history|
  {
    if history != [] {
      assert (history + [x])[1..] == history[1..] + [x];
      InOrderPrefix(history[1..], x, history[0].1);
    }
  }

  lemma SoundBefore(quick: nat, history: seq<(Event, nat)>, x: (Event, nat))
    requires InOrder(history + [x], 0)
    ensures Sound(After(Initial(quick), history), x.1)
  {
    InOrderPrefix(history, x, 0);
    var end := HistoryKeepsSound(Initial(quick), history, 0);
  }

  /** How often a run reported a finger that did not match. */
  function Rejections(history: seq<(Event, nat)>, run: nat): nat {
    if history == [] then 0
    else Rejections(history[..|history| - 1], run) + if history[|history| - 1].0 == RunRejected(run) then 1 else 0
  }

  /** When it last did, or when it began. */
  function LastSign(history: seq<(Event, nat)>, run: nat, began: nat): nat {
    if history == [] then began
    else if history[|history| - 1].0 == RunRejected(run) then history[|history| - 1].1
    else LastSign(history[..|history| - 1], run, began)
  }

  lemma StepKeepsRun(s: Session, e: Event, now: nat)
    requires Sound(s, now)
    ensures var s' := Step(s, e, now);
      && s'.quickFailureMs == s.quickFailureMs
      && (s'.auth.Some? ==>
          if s'.auth == s.auth then
            && s'.rejections == s.rejections + (if e == RunRejected(s.auth.value) then 1 else 0)
            && s'.sinceEvent == (if e == RunRejected(s.auth.value) then now else s.sinceEvent)
          else s'.auth == Some(s.made) && s'.made == s.made + 1 && s'.rejections == 0 && s'.sinceEvent == now)
  {
  }

  /** Run `run` began with event `k` of the history. */
  ghost predicate BeganWith(quick: nat, history: seq<(Event, nat)>, run: nat, k: nat) {
    && k < |history|
    && After(Initial(quick), history[..k]).made == run
    && After(Initial(quick), history[..k + 1]).made == run + 1
  }

  /** The fields are what the history of the live run says: how many fingers it has rejected since it
      began, and when there last was a sign of it. */
  lemma {:induction false} LiveRun(quick: nat, history: seq<(Event, nat)>) returns (k: nat)
    requires InOrder(history, 0) && After(Initial(quick), history).auth.Some?
    ensures var (s, run) := (After(Initial(quick), history), After(Initial(quick), history).auth.value);
      && BeganWith(quick, history, run, k)
      && s.rejections == Rejections(history[k + 1..], run)
      && s.sinceEvent == LastSign(history[k + 1..], run, history[k].1)
    decreases |history|
  {
    var (init, x) := (history[..|history| - 1], history[|history| - 1]);
    assert history == init + [x];
    AfterMore(Initial(quick), init, x);
    InOrderPrefix(init, x, 0);
    SoundBefore(quick, init, x);
    var s := After(Initial(quick), init);
    StepKeepsRun(s, x.0, x.1);
    hide Step, Sound;
    if After(Initial(quick), history).auth == s.auth {
      k := LiveRun(quick, init);
      assert history[k + 1..] == init[k + 1..] + [x];
      assert history[..k] == init[..k] && history[..k + 1] == init[..k + 1];
    } else {
      k := |init|;
      assert history[..k] == init && history[..k + 1] == history && history[k + 1..] == [];
    }
  }

  /** The end of the live run, told from the history alone. A finger that matches ends the listening; a
      run that ends long after its last sign is replaced; one that fails quickly has been given up if it
      has rejected a finger, and is of no use otherwise. */
  lemma RunEnds(quick: nat, history: seq<(Event, nat)>, matched: bool, now: nat) returns (k: nat)
    requires InOrder(history, 0) && After(Initial(quick), history).auth.Some?
    requires history != [] ==> history[|history| - 1].1 <= now
    ensures var (s, run) := (After(Initial(quick), history), After(Initial(quick), history).auth.value);
      var s' := Step(s, RunFinished(run, matched), now);
      && BeganWith(quick, history, run, k)
      && var idle := now - LastSign(history[k + 1..], run, history[k].1);
        && (s'.state.Listening? <==> !matched && idle >= quick)
        && (s'.state.Listening? ==> s'.auth == Some(run + 1) && s'.rejections == 0 && s'.sinceEvent == now)
        && (s'.state.Idle? <==> matched)
        && (s'.state.GaveUp? <==> !matched && idle < quick && Rejections(history[k + 1..], run) > 0)
        && (s'.state.Unavailable? <==> !matched && idle < quick && Rejections(history[k + 1..], run) == 0)
  {
    k := LiveRun(quick, history);
    var end := HistoryKeepsSound(Initial(quick), history, 0);
  }

  /** Every other way to stop listening or asking: a prompt, a failed probe, or being told to. */
  lemma OtherEnds(s: Session, e: Event, now: nat)
    requires Sound(s, now) && (s.state.Listening? || s.state.Probing?) && !e.RunFinished?
    ensures var s' := Step(s, e, now);
      && !s'.state.GaveUp?
      && (s'.state.Idle? <==> e.Stop?)
      && (s'.state.Unavailable? <==>
        (s.state.Listening? && e == RunPrompts(s.auth.value))
        || (s.state.Probing? && e == ProbeFinished(s.user, false)))
  {
  }

  // ---------- the objects ----------

  /** FingerprintSession and FingerprintUnlock; `now` is what the elapsed-time clock shows. */
  class FingerprintUnlock {
    const quickFailureMs: nat
    var state: State
    var user: string
    var rejections: nat
    var sinceEvent: nat
    var auth: Option<nat>
    var made: nat
    var log: seq<Act>

    function View(): Session
      reads this
    {
      Session(quickFailureMs, state, user, rejections, sinceEvent, auth, made, log)
    }

    constructor (quickFailureMs: nat)
      ensures View() == Initial(quickFailureMs)
    {
      this.quickFailureMs := quickFailureMs;
      state, user, rejections, sinceEvent, auth, made, log := Idle, "", 0, 0, None, 0, [];
    }

    method Start(name: string, now: nat)
      modifies this
      ensures View() == OnStart(old(View()), name)
    {
      if name == "" {
        return;
      }
      if name == user && (state == Probing || state == Listening) {
        return;
      }
      Stop(now);
      user := name;
      state := Probing;
      log := log + [ProbeAsked(user)];
    }

    method Stop(now: nat)
      modifies this
      ensures View() == OnStop(old(View()))
    {
      if state == Listening {
        StopRun(now);
      }
      if state == Probing || state == Listening {
        state := Idle;
      }
    }

    method ProbeFinished(name: string, available: bool, now: nat)
      modifies this
      ensures View() == OnProbeFinished(old(View()), name, available, now)
    {
      if state != Probing || name != user {
        return;
      }
      if !available {
        state := Unavailable;
        return;
      }
      log := log + [ProbeAccepted];
      BeginRun(now);
    }

    method BeginRun(now: nat)
      modifies this
      ensures View() == Begin(old(View()), now)
    {
      rejections := 0;
      sinceEvent := now;
      state := Listening;
      StartRun();
    }

    method StartRun()
      modifies this`auth, this`made, this`log
      ensures auth == Some(old(made)) && made == old(made) + 1 && log == old(log) + [RunStarted(user, sinceEvent)]
    {
      auth := Some(made);
      made := made + 1;
      log := log + [RunStarted(user, sinceEvent)];
    }

    /** Stopping the helper delivers its end before this returns; by then the run is no longer live. */
    method StopRun(now: nat)
      modifies this
      ensures View() == Cease(old(View()))
      decreases if auth.Some? then 1 else 0, 0
    {
      if auth.None? {
        return;
      }
      var run := auth.value;
      auth := None;
      log := log + [RunStopped];
      AuthFinished(run, false, now);
    }

    method AuthError(run: nat, kind: ErrorKind, now: nat)
      modifies this
      ensures View()
           == if kind.AuthenticationError? then Step(old(View()), Event.RunRejected(run), now) else old(View())
    {
      if auth == Some(run) && kind == AuthenticationError {
        RunRejected(now);
      }
    }

    method RunRejected(now: nat)
      modifies this`rejections, this`sinceEvent
      ensures rejections == old(rejections) + (if state == Listening then 1 else 0)
      ensures sinceEvent == if state == Listening then now else old(sinceEvent)
    {
      if state != Listening {
        return;
      }
      rejections := rejections + 1;
      sinceEvent := now;
    }

    method RequestChanged(run: nat, prompts: nat, now: nat)
      modifies this
      ensures View() == if prompts > 0 then Step(old(View()), RunPrompts(run), now) else old(View())
    {
      if auth != Some(run) || prompts == 0 {
        return;
      }
      if state != Listening {
        return;
      }
      StopRun(now);
      state := Unavailable;
    }

    /** The result of a run, or the end of its helper without one. */
    method AuthFinished(run: nat, matched: bool, now: nat)
      modifies this
      ensures View() == Step(old(View()), Event.RunFinished(run, matched), now)
      decreases if auth.Some? then 1 else 0, 2
    {
      if auth == Some(run) {
        RunFinished(matched, now);
      }
    }

    method RunFinished(matched: bool, now: nat)
      modifies this
      ensures View() == if old(state) == Listening then OnFinished(old(View()), matched, now) else old(View())
      decreases if auth.Some? then 1 else 0, 1
    {
      if state != Listening {
        return;
      }
      StopRun(now);
      if matched {
        state := Idle;
        return;
      }
      if now - sinceEvent >= quickFailureMs {
        log := log + [FailedSlowly];
        BeginRun(now);
        return;
      }
      if rejections > 0 {
        state := GaveUp;
        return;
      }
      state := Unavailable;
    }
  }
}
