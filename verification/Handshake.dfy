/** The daemon and its helper together: the helper blocks on its socket for three kinds of reply, and
    the daemon holds one of them back on purpose. */
module Handshake {
  import opened LoginTypes
  import opened SessionReuse
  import opened DisplaySpec
  import Runs = DisplaySafety
  import Causes = DisplayCauses

  // ---------- the helper ----------

  /** Where a helper process stands. `opening` tells the questions of session modules from those of
      the authentication. */
  datatype Place =
    | Authenticating
    | AwaitingAnswers(prompts: seq<Prompt>, opening: bool)
    | AwaitingRelease(user: string)
    | OpeningSession
    | AwaitingReceipt(ok: bool)
    | InSession
    | Exiting(code: int)

  /** `path` is empty when only an authentication is wanted. */
  datatype Helper = Helper(path: string, fingerprint: bool, at: Place)

  /** A helper, if there is one, and the messages under way to and from the daemon. */
  datatype Line = Line(helper: Option<Helper>, up: seq<HelperMessage>, down: seq<Reply>)

  /** What the helper does when the next reply arrives. Like the program, it goes on even if the
      reply is of the wrong kind. */
  function AfterReply(h: Helper): Helper {
    match h.at
    case AwaitingAnswers(_, opening) => h.(at := if opening then OpeningSession else Authenticating)
    case AwaitingRelease(_) => h.(at := if h.path != "" then OpeningSession else Exiting(0))
    case AwaitingReceipt(ok) => h.(at := if ok then InSession else Exiting(2))
    case _ => h
  }

  predicate Expects(at: Place, reply: Reply) {
    match at
    case AwaitingAnswers(_, _) => reply.PromptReply?
    case AwaitingRelease(_) => reply.AuthenticatedReply?
    case AwaitingReceipt(_) => reply.SessionStatusReply?
    case _ => false
  }

  // ---------- both together ----------

  /** The wire's view of what the daemon does. */
  function Hear(line: Line, o: Output): Line {
    match o
    case HelperStarted(_, path, _, fingerprint) => Line(Some(Helper(path, fingerprint, Authenticating)), [], [])
    case HelperEnded => Line(None, [], [])
    case SendReply(reply) => if line.helper.Some? then line.(down := line.down + [reply]) else line
    case _ => line
  }

  function HearAll(line: Line, outputs: seq<Output>): Line {
    if outputs == [] then line else Hear(HearAll(line, outputs[..|outputs| - 1]), outputs[|outputs| - 1])
  }

  datatype Joint = Joint(d: Daemon, line: Line)

  datatype Move =
    | DaemonActs(e: Event)                   // anything but the two below
    | DaemonReads
    | DaemonReaps(how: HelperExit)
    | HelperReads
    | HelperRemarks(message: HelperMessage)
    | HelperAsks(prompts: seq<Prompt>)
    | HelperRefuses
    | HelperAccepts(user: string)
    | SessionOpens(ok: bool)
    | SessionEnds(code: int)

  predicate CanTalk(line: Line) {
    line.helper.Some? && (line.helper.value.at.Authenticating? || line.helper.value.at.OpeningSession?)
  }

  /** The moves of either side. What the daemon reads is whatever the helper has sent; that it can
      cope with it is proved, not required. */
  predicate Possible(j: Joint, m: Move) {
    match m
    case DaemonActs(e) => !e.HelperSays? && !e.HelperExits? && Enabled(j.d, e)
    case DaemonReads => j.line.up != []
    case DaemonReaps(how) => j.line.helper.Some? && (how.Crashed? || j.line.helper.value.at == Exiting(how.code))
    case HelperReads => j.line.helper.Some? && j.line.down != []
    case HelperRemarks(message) => CanTalk(j.line) && (message.Info? || message.Error?)
    case HelperAsks(_) => CanTalk(j.line)
    case HelperRefuses => CanTalk(j.line) && j.line.helper.value.at.Authenticating?
    case HelperAccepts(user) => CanTalk(j.line) && j.line.helper.value.at.Authenticating? && user != ""
    case SessionOpens(_) => CanTalk(j.line) && j.line.helper.value.at.OpeningSession?
    case SessionEnds(_) => j.line.helper.Some? && j.line.helper.value.at.InSession?
  }

  function Act(j: Joint, line: Line, e: Event): Joint
    requires WellFormed(j.d) && Enabled(j.d, e)
  {
    var d' := Step(j.d, e);
    Joint(d', if j.d.log <= d'.log then HearAll(line, d'.log[|j.d.log|..]) else line)
  }

  function Tell(j: Joint, message: HelperMessage, at: Place): Joint
    requires j.line.helper.Some?
  {
    j.(line := j.line.(helper := Some(j.line.helper.value.(at := at)), up := j.line.up + [message]))
  }

  /** The daemon's event in a move, if it has one. */
  predicate Coped(j: Joint, m: Move)
    requires Possible(j, m)
  {
    && WellFormed(j.d)
    && (m.DaemonReads? ==> Enabled(j.d, HelperSays(j.line.up[0])))
    && (m.DaemonReaps? ==> Enabled(j.d, HelperExits(m.how)))
  }

  function Next(j: Joint, m: Move): Joint
    requires Possible(j, m) && Coped(j, m)
  {
    match m
    case DaemonActs(e) => Act(j, j.line, e)
    case DaemonReads => Act(j, j.line.(up := j.line.up[1..]), HelperSays(j.line.up[0]))
    case DaemonReaps(how) => Act(j, j.line, HelperExits(how))
    case HelperReads =>
      j.(line := j.line.(helper := Some(AfterReply(j.line.helper.value)), down := j.line.down[1..]))
    case HelperRemarks(message) => Tell(j, message, j.line.helper.value.at)
    case HelperAsks(prompts) =>
      Tell(j, PromptRequest(prompts), AwaitingAnswers(prompts, j.line.helper.value.at.OpeningSession?))
    case HelperRefuses => Tell(j, Authenticated(""), Exiting(1))
    case HelperAccepts(user) => Tell(j, Authenticated(user), AwaitingRelease(user))
    case SessionOpens(ok) => Tell(j, SessionStatus(ok), AwaitingReceipt(ok))
    case SessionEnds(code) => j.(line := j.line.(helper := Some(j.line.helper.value.(at := Exiting(code)))))
  }

  // ---------- the invariant ----------

  predicate Remarks(up: seq<HelperMessage>) {
    forall m <- up :: m.Info? || m.Error?
  }

  predicate EndsWith(up: seq<HelperMessage>, m: HelperMessage) {
    up != [] && Remarks(up[..|up| - 1]) && up[|up| - 1] == m
  }

  /** A session is being opened for this helper. */
  predicate OpensFor(p: Phase, h: Helper) {
    h.path != "" && (p.Opening? || (p == Detached(true) && !h.fingerprint))
  }

  predicate ReleasedFor(p: Phase, h: Helper) {
    if h.path == "" then p.Activating? || p == Detached(false) else OpensFor(p, h)
  }

  /** The helper was started for the owner, and for a session exactly if none is reused. */
  predicate StartedFor(p: Phase, h: Helper) {
    && (p.Proving? || p.Held? ==> (h.path == "" <==> p.reuse.Some?))
    && (p.Activating? ==> h.path == "")
    && (Owner(p).Some? ==> h.fingerprint == Owner(p).value.fingerprint)
    && (Owner(p).None? && !p.Detached? ==> !h.fingerprint)
  }

  /** Both sides agree on whose turn it is. */
  predicate TakesTurns(p: Phase, h: Helper, up: seq<HelperMessage>, down: seq<Reply>) {
    match h.at
    case Authenticating => Remarks(up) && down == [] && p.Proving?
    case AwaitingAnswers(prompts, opening) =>
      && (if opening then OpensFor(p, h) else p.Proving?)
      && (if up != [] then EndsWith(up, PromptRequest(prompts)) && down == []
          else down == [] || (|down| == 1 && down[0].PromptReply?))
    case AwaitingRelease(user) =>
      if up != [] then user != "" && EndsWith(up, Authenticated(user)) && down == [] && p.Proving?
      else if down == [] then p.Held?
      else down == [AuthenticatedReply] && ReleasedFor(p, h)
    case OpeningSession => Remarks(up) && down == [] && OpensFor(p, h)
    case AwaitingReceipt(ok) =>
      if up != [] then EndsWith(up, SessionStatus(ok)) && down == [] && OpensFor(p, h)
      else down == [SessionStatusReply] && p == Detached(ok)
    case InSession => up == [] && down == [] && p == Detached(true)
    case Exiting(_) =>
      && down == []
      && (if up != [] then EndsWith(up, Authenticated("")) && p.Proving? else p.Detached? || p.Activating?)
  }

  predicate InTune(j: Joint) {
    && WellFormed(j.d)
    && (j.d.phase.LookingUp? ==> j.d.attempt.path != "")
    && match j.line.helper
       case None => !HelperAlive(j.d.phase) && j.line.up == [] && j.line.down == []
       case Some(h) =>
         HelperAlive(j.d.phase) && StartedFor(j.d.phase, h)
         && TakesTurns(j.d.phase, h, j.line.up, j.line.down)
  }

  // ---------- what follows from it ----------

  lemma FirstWord(up: seq<HelperMessage>)
    requires up != []
    ensures Remarks(up) ==> Remarks(up[1..]) && (up[0].Info? || up[0].Error?)
    ensures forall m :: EndsWith(up, m) ==>
      if |up| == 1 then up[0] == m else EndsWith(up[1..], m) && (up[0].Info? || up[0].Error?)
  {
    assert up[0] in up;
    if |up| > 1 {
      assert up[..|up| - 1][1..] == up[1..][..|up| - 2];
      assert up[0] == up[..|up| - 1][0];
    }
  }

  /** The helper never sends what the daemon is not ready for. */
  lemma DaemonCanCope(j: Joint, m: Move)
    requires InTune(j) && Possible(j, m)
    ensures Coped(j, m)
  {
    if m.DaemonReads? { FirstWord(j.line.up); }
  }

  /** At most one reply is under way, and it is the one the helper waits for. */
  lemma RightReply(j: Joint)
    requires InTune(j) && j.line.down != []
    ensures |j.line.down| == 1 && Expects(j.line.helper.value.at, j.line.down[0])
  {
  }

  /** While the greeter animates, the helper waits and opens nothing. */
  lemma HeldHelperWaits(j: Joint)
    requires InTune(j) && j.d.phase.Held?
    ensures j.line.helper.Some? && j.line.helper.value.at.AwaitingRelease? && j.line.up == [] && j.line.down == []
  {
  }

  // ---------- the wire hears outputs in order ----------

  predicate Chatter(outputs: seq<Output>) {
    forall o <- outputs :: !o.HelperStarted? && !o.HelperEnded? && !o.SendReply?
  }

  lemma {:induction false} ChatterIsIgnored(line: Line, outputs: seq<Output>)
    requires Chatter(outputs)
    ensures HearAll(line, outputs) == line
  {
    if outputs != [] { ChatterIsIgnored(line, outputs[..|outputs| - 1]); }
  }

  lemma {:induction false} HearInParts(line: Line, a: seq<Output>, b: seq<Output>)
    ensures HearAll(line, a + b) == HearAll(HearAll(line, a), b)
  {
    if b == [] {
      assert a + b == a;
    } else {
      assert (a + b)[..|a + b| - 1] == a + b[..|b| - 1];
      HearInParts(line, a, b[..|b| - 1]);
    }
  }

  /** From `d` to `d1` the wire has come from `line` to `line1`. */
  predicate Heard(d: Daemon, line: Line, d1: Daemon, line1: Line) {
    d.log <= d1.log && line1 == HearAll(line, d1.log[|d.log|..])
  }

  lemma HeardNothing(d: Daemon, line: Line, d1: Daemon)
    requires d1.log == d.log
    ensures Heard(d, line, d1, line)
  {
  }

  lemma HeardOne(d: Daemon, line: Line, d1: Daemon, line1: Line, o: Output)
    requires Heard(d, line, d1, line1)
    ensures Heard(d, line, Emit(d1, [o]), Hear(line1, o))
  {
    HearInParts(line, d1.log[|d.log|..], [o]);
    assert HearAll(line1, [o]) == Hear(HearAll(line1, [o][..0]), o);
    assert Emit(d1, [o]).log[|d.log|..] == d1.log[|d.log|..] + [o];
  }

  lemma HeardChatter(d: Daemon, line: Line, d1: Daemon, line1: Line, outputs: seq<Output>)
    requires Heard(d, line, d1, line1) && Chatter(outputs)
    ensures Heard(d, line, Emit(d1, outputs), line1)
  {
    HearInParts(line, d1.log[|d.log|..], outputs);
    ChatterIsIgnored(line1, outputs);
    assert Emit(d1, outputs).log[|d.log|..] == d1.log[|d.log|..] + outputs;
  }

  lemma HeardDeath(d: Daemon, line: Line, d1: Daemon, line1: Line, p: Phase)
    requires Heard(d, line, d1, line1) && HelperAlive(p) == line1.helper.Some?
    requires line1.helper.None? ==> line1 == Line(None, [], [])
    ensures Heard(d, line, Emit(d1, Death(p)), Line(None, [], []))
  {
    if HelperAlive(p) {
      HeardOne(d, line, d1, line1, HelperEnded);
    } else {
      HeardChatter(d, line, d1, line1, Death(p));
    }
  }

  // ---------- every move keeps both sides in tune ----------

  const NO_LINE := Line(None, [], [])

  /** `Act` on a step whose end and whose messages are known. */
  lemma ActIs(j: Joint, line: Line, e: Event, d': Daemon, line': Line)
    requires WellFormed(j.d) && Enabled(j.d, e) && Step(j.d, e) == d' && Heard(j.d, line, d', line')
    ensures Act(j, line, e) == Joint(d', line')
  {
  }

  lemma StartHeard(d: Daemon, line: Line, d1: Daemon, owner: Option<Request>, reuse: Option<string>)
    returns (line': Line)
    requires Heard(d, line, d1, NO_LINE) && d1.attempt.Attempt? && d1.attempt.path != ""
    ensures var d' := StartHelper(d1, owner, reuse);
      Heard(d, line, d', line') && (WellFormed(d') ==> InTune(Joint(d', line')))
  {
    var d' := StartHelper(d1, owner, reuse);
    var o := HelperStarted(d1.attempt.user, d'.attempt.path, d1.autologin, owner.Some? && owner.value.fingerprint);
    HeardOne(d, line, d1, NO_LINE, o);
    assert d'.log == Emit(d1, [o]).log;
    hide WellFormed, Heard;
    line' := Hear(NO_LINE, o);
    assert WellFormed(d') ==> InTune(Joint(d', line'));
  }

  /** An attempt begins; the wire hears of a helper unless a session to reuse is looked for first. */
  lemma BeginHeard(d: Daemon, line: Line, d1: Daemon, owner: Option<Request>, user: string, passPhrase: string,
                   session: SessionChoice, canReuse: bool) returns (line': Line)
    requires Heard(d, line, d1, NO_LINE) && session.Usable()
    ensures var d' := Begin(d1, owner, user, passPhrase, session, canReuse);
      Heard(d, line, d', line') && (WellFormed(d') ==> InTune(Joint(d', line')))
  {
    hide WellFormed, Heard, StartHelper;
    var d2 := d1.(attempt := Attempt.Attempt(user, passPhrase, session.exec, session.x11 && d1.rootful));
    SameLog(d, line, d1, NO_LINE, d2);
    if canReuse {
      HeardChatter(d, line, d2, NO_LINE, [ListSessions]);
      line' := NO_LINE;
      var d' := Begin(d1, owner, user, passPhrase, session, canReuse);
      SameLog(d, line, Emit(d2, [ListSessions]), NO_LINE, d');
    } else {
      line' := StartHeard(d, line, d2, owner, None);
    }
  }

  lemma CancelHeard(d: Daemon, line: Line, d1: Daemon, o: Output)
    requires InTune(Joint(d, line)) && Cancellable(d.phase) && d1.phase == d.phase && d1.log == d.log
    requires o.QuietlyCancelled? || o.FingerprintFinished?
    ensures Heard(d, line, Emit(CancelFingerprint(d1), [o]), NO_LINE)
  {
    HeardNothing(d, line, d1);
    HeardDeath(d, line, d1, line, d.phase);
    HeardChatter(d, line, CancelFingerprint(d1), NO_LINE, [o]);
  }

  /** A step that leaves the phase alone and sends nothing to the helper. */
  lemma UnmovedKeeps(j: Joint, line: Line, e: Event, d1: Daemon, outputs: seq<Output>)
    requires InTune(Joint(j.d, line)) && Enabled(j.d, e) && WellFormed(Step(j.d, e))
    requires d1.log == j.d.log && Step(j.d, e) == Emit(d1, outputs) && Chatter(outputs)
    requires d1.phase == j.d.phase && d1.attempt == j.d.attempt
    ensures InTune(Act(j, line, e))
  {
    HeardNothing(j.d, line, d1);
    HeardChatter(j.d, line, d1, line, outputs);
    ActIs(j, line, e, Emit(d1, outputs), line);
  }

  lemma PasswordLoginKeeps(j: Joint, e: Event)
    requires InTune(j) && Enabled(j.d, e) && WellFormed(Step(j.d, e)) && e.Login?
    ensures InTune(Act(j, j.line, e))
  {
    hide Begin;
    var d1 := j.d.(issued := j.d.issued + 1);
    var line1 := j.line;
    HeardNothing(j.d, j.line, d1);
    if Cancellable(j.d.phase) {
      var quiet := QuietlyCancelled(Owner(j.d.phase).value);
      CancelHeard(j.d, j.line, d1, quiet);
      d1 := Emit(CancelFingerprint(d1), [quiet]);
      line1 := NO_LINE;
    }
    if Busy(d1.phase) || e.user == "gxdm" || !e.session.Usable() {
      HeardChatter(j.d, j.line, d1, line1, [LoginFailed(e.request)]);
      ActIs(j, j.line, e, Emit(d1, [LoginFailed(e.request)]), line1);
    } else {
      var line' := BeginHeard(j.d, j.line, d1, Some(e.request), e.user, e.passPhrase, e.session, e.canReuse);
      ActIs(j, j.line, e, Begin(d1, Some(e.request), e.user, e.passPhrase, e.session, e.canReuse), line');
    }
  }

  lemma FingerprintLoginKeeps(j: Joint, e: Event)
    requires InTune(j) && Enabled(j.d, e) && WellFormed(Step(j.d, e)) && e.FingerprintLogin?
    ensures InTune(Act(j, j.line, e))
  {
    hide Begin;
    var d1 := j.d.(issued := j.d.issued + 1);
    if Busy(d1.phase) || e.user == "" || e.user == "gxdm" || !e.session.Usable() {
      UnmovedKeeps(j, j.line, e, d1, [FingerprintFinished(e.request)]);
    } else {
      HeardNothing(j.d, j.line, d1);
      var line' := BeginHeard(j.d, j.line, d1, Some(e.request), e.user, "", e.session, e.canReuse);
      ActIs(j, j.line, e, Begin(d1, Some(e.request), e.user, "", e.session, e.canReuse), line');
    }
  }

  lemma CancelKeeps(j: Joint, e: Event)
    requires InTune(j) && Enabled(j.d, e) && WellFormed(Step(j.d, e)) && (e.FingerprintCancel? || e.PromptCancelFires?)
    ensures InTune(Act(j, j.line, e))
  {
    var d1 := if e.PromptCancelFires? then j.d.(promptCancels := j.d.promptCancels - 1) else j.d;
    if Cancellable(j.d.phase) && (e.PromptCancelFires? || Owner(j.d.phase).value.socket == e.socket) {
      var r := Owner(j.d.phase).value;
      var o := if e.PromptCancelFires? then FingerprintFinished(r) else QuietlyCancelled(r);
      CancelHeard(j.d, j.line, d1, o);
      ActIs(j, j.line, e, Emit(CancelFingerprint(d1), [o]), NO_LINE);
    } else {
      HeardNothing(j.d, j.line, d1);
      ActIs(j, j.line, e, d1, j.line);
    }
  }

  lemma StartKeeps(j: Joint, e: Event)
    requires InTune(j) && Enabled(j.d, e) && WellFormed(Step(j.d, e)) && (e.StartDisplay? || e.ServerReady?)
    ensures InTune(Act(j, j.line, e))
  {
    hide Begin;
    var d1 := j.d.(started := true, autologin := true);
    HeardNothing(j.d, j.line, d1);
    if !j.d.started && e.plan.AutologinAs? && e.plan.session.Usable() && j.d.rootful == e.ServerReady? {
      var line' := BeginHeard(j.d, j.line, d1, None, e.plan.user, "", e.plan.session, e.plan.canReuse);
      ActIs(j, j.line, e, Begin(d1, None, e.plan.user, "", e.plan.session, e.plan.canReuse), line');
    } else {
      var d' := Step(j.d, e);
      var o := if e.ServerReady? then GreeterStarted else StartDisplayServer;
      if j.d.started {
        HeardNothing(j.d, j.line, d');
      } else {
        HeardChatter(j.d, j.line, j.d, j.line, [o]);
        assert d'.log == Emit(j.d, [o]).log;
      }
      ActIs(j, j.line, e, d', j.line);
    }
  }

  lemma FinishLookupKeeps(j: Joint, e: Event, found: Option<string>)
    requires InTune(j) && Enabled(j.d, e) && WellFormed(Step(j.d, e)) && j.d.phase.LookingUp?
    requires Step(j.d, e) == FinishLookup(j.d, found)
    ensures InTune(Act(j, j.line, e))
  {
    hide Step, StartHelper;
    HeardNothing(j.d, j.line, j.d);
    var line' := StartHeard(j.d, j.line, j.d, j.d.phase.owner, found);
    ActIs(j, j.line, e, FinishLookup(j.d, found), line');
  }

  lemma LookupKeeps(j: Joint, e: Event)
    requires InTune(j) && Enabled(j.d, e) && WellFormed(Step(j.d, e))
    requires e.SessionsListed? || e.PropertiesRead? || e.LookupTimeout?
    ensures InTune(Act(j, j.line, e))
  {
    hide CanReuse, Candidates, PropertyQueries;
    var d' := Step(j.d, e);
    if d'.phase.LookingUp? {
      var queries :=
        if e.SessionsListed? then PropertyQueries(Candidates(e.reply.value, j.d.phase.search.user)) else [];
      assert d'.log == Emit(j.d, queries).log && Chatter(queries) by { QueriesAreChatter(); }
      HeardNothing(j.d, j.line, j.d);
      HeardChatter(j.d, j.line, j.d, j.line, queries);
      hide Step;
      ActIs(j, j.line, e, d', j.line);
    } else if d' == FinishLookup(j.d, None) {
      FinishLookupKeeps(j, e, None);
    } else {
      FinishLookupKeeps(j, e, Some(e.entry.id));
    }
  }

  lemma QueriesAreChatter()
    ensures forall entries :: Chatter(PropertyQueries(entries))
  {
  }

  lemma ReleaseHeard(d: Daemon, line: Line, d1: Daemon, line1: Line, owner: Option<Request>, reuse: Option<string>)
    requires Heard(d, line, d1, line1) && line1.helper.Some?
    ensures Heard(d, line, Release(d1, owner, reuse), line1.(down := line1.down + [AuthenticatedReply]))
  {
    match reuse
    case Some(sid) =>
      HeardChatter(d, line, d1, line1, [UnlockSession(sid)]);
      HeardOne(d, line, Emit(d1, [UnlockSession(sid)]), line1, SendReply(AuthenticatedReply));
      assert Release(d1, owner, reuse).log == Emit(Emit(d1, [UnlockSession(sid)]), [SendReply(AuthenticatedReply)]).log;
    case None =>
      HeardOne(d, line, d1, line1, SendReply(AuthenticatedReply));
  }

  lemma TransitionKeeps(j: Joint, e: Event)
    requires InTune(j) && Enabled(j.d, e) && WellFormed(Step(j.d, e)) && (e.TransitionReady? || e.TransitionTimeout?)
    ensures InTune(Act(j, j.line, e))
  {
    hide Heard, Release;
    HeardNothing(j.d, j.line, j.d);
    if Step(j.d, e) == j.d {
      ActIs(j, j.line, e, j.d, j.line);
    } else {
      HeldHelperWaits(j);
      HeardChatter(j.d, j.line, j.d, j.line, [TransitionOver]);
      var (owner, reuse) := (j.d.phase.owner, j.d.phase.reuse);
      ReleaseHeard(j.d, j.line, Emit(j.d, [TransitionOver]), j.line, owner, reuse);
      var line' := j.line.(down := j.line.down + [AuthenticatedReply]);
      ActIs(j, j.line, e, Step(j.d, e), line');
      ReleasedInTune(Emit(j.d, [TransitionOver]), owner, reuse, line');
    }
  }

  lemma ReleasedInTune(d: Daemon, owner: Option<Request>, reuse: Option<string>, line: Line)
    requires line.helper.Some? && line.helper.value.at.AwaitingRelease? && line.up == []
    requires line.down == [AuthenticatedReply]
    requires line.helper.value.path == "" <==> reuse.Some?
    requires line.helper.value.fingerprint == (owner.Some? && owner.value.fingerprint)
    requires WellFormed(Release(d, owner, reuse))
    ensures InTune(Joint(Release(d, owner, reuse), line))
  {
    hide WellFormed;
  }

  lemma StopHeard(d: Daemon, line: Line, d1: Daemon, line1: Line)
    requires Heard(d, line, d1, line1) && d1.started
    requires HelperAlive(d1.phase) == line1.helper.Some? && (line1.helper.None? ==> line1 == NO_LINE)
    ensures Heard(d, line, StopDisplay(d1), NO_LINE)
  {
    var p := d1.phase;
    var said := Failure(p) + Unregistration(p);
    assert Chatter(said);
    hide Heard, Failure, Unregistration, Death;
    HeardChatter(d, line, d1, line1, said);
    HeardDeath(d, line, Emit(d1, said), line1, p);
    var d2 := Emit(Emit(d1, said), Death(p));
    HeardChatter(d, line, d2, NO_LINE, [DisplayStopped]);
    Regroup(d1.log, said, Death(p), [DisplayStopped]);
    SameLog(d, line, Emit(d2, [DisplayStopped]), NO_LINE, StopDisplay(d1));
  }

  lemma Regroup(a: seq<Output>, b: seq<Output>, c: seq<Output>, d: seq<Output>)
    ensures a + (b + c + d) == a + b + c + d
  {
  }

  lemma StopKeeps(j: Joint)
    requires InTune(j) && WellFormed(StopDisplay(j.d))
    ensures InTune(Act(j, j.line, Stop))
  {
    hide Heard, StopDisplay;
    HeardNothing(j.d, j.line, j.d);
    if j.d.started {
      StopHeard(j.d, j.line, j.d, j.line);
      ActIs(j, j.line, Stop, StopDisplay(j.d), NO_LINE);
      StoppedInTune(j.d);
    } else {
      assert StopDisplay(j.d) == j.d by { StopOfStopped(j.d); }
      ActIs(j, j.line, Stop, j.d, j.line);
    }
  }

  lemma StopOfStopped(d: Daemon)
    requires !d.started
    ensures StopDisplay(d) == d
  {
  }

  lemma ActivationOverHeard(j: Joint, ok: bool) returns (line': Line)
    requires InTune(j) && j.d.phase.Activating?
    ensures Heard(j.d, j.line, FinishActivation(j.d, ok), line')
    ensures line' == if j.d.phase.helperAlive then j.line else NO_LINE
  {
    hide StopDisplay, Heard, WellFormed;
    var result := if ok then Success(j.d.phase) else Failure(j.d.phase);
    HeardNothing(j.d, j.line, j.d);
    HeardChatter(j.d, j.line, j.d, j.line, result);
    var over := Emit(j.d, result);
    line' := j.line;
    if j.d.phase.helperAlive {
      SameLog(j.d, j.line, over, j.line, FinishActivation(j.d, ok));
    } else {
      SameLog(j.d, j.line, over, j.line, Rest(over));
      StopHeardOrNot(j.d, j.line, Rest(over));
    }
  }

  lemma StopHeardOrNot(d: Daemon, line: Line, d1: Daemon)
    requires Heard(d, line, d1, NO_LINE) && d1.phase.Idle?
    ensures Heard(d, line, StopDisplay(d1), NO_LINE)
  {
    if d1.started { StopHeard(d, line, d1, NO_LINE); }
  }

  lemma ActivationKeeps(j: Joint, e: Event)
    requires InTune(j) && Enabled(j.d, e) && WellFormed(Step(j.d, e))
    requires e.UnlockAnswered? || e.SwitchAnswered? || e.ActivationTimeout?
    ensures InTune(Act(j, j.line, e))
  {
    hide StopDisplay, Heard;
    if e == UnlockAnswered(true) {
      HeardNothing(j.d, j.line, j.d);
      HeardChatter(j.d, j.line, j.d, j.line, [ActivateSession(j.d.phase.sid)]);
      ActIs(j, j.line, e, Step(j.d, e), j.line);
    } else {
      ActivationOverKeeps(j, e, e == SwitchAnswered(true));
    }
  }

  lemma ActivationOverKeeps(j: Joint, e: Event, ok: bool)
    requires InTune(j) && j.d.phase.Activating? && Enabled(j.d, e) && WellFormed(Step(j.d, e))
    requires Step(j.d, e) == FinishActivation(j.d, ok)
    ensures InTune(Act(j, j.line, e))
  {
    hide StopDisplay, Heard, Step;
    var line' := ActivationOverHeard(j, ok);
    ActIs(j, j.line, e, FinishActivation(j.d, ok), line');
    if !j.d.phase.helperAlive {
      StoppedInTune(Rest(Emit(j.d, if ok then Success(j.d.phase) else Failure(j.d.phase))));
    }
  }

  lemma StoppedInTune(d: Daemon)
    requires WellFormed(StopDisplay(d)) && (d.started || d.phase.Idle?)
    ensures InTune(Joint(StopDisplay(d), NO_LINE))
  {
  }

  lemma DeathHeard(j: Joint, how: HelperExit)
    requires InTune(j) && HelperAlive(j.d.phase)
    ensures Heard(j.d, j.line, Bury(j.d, how), NO_LINE)
  {
    hide WellFormed, Heard, Notice, Unregistration;
    var (d, rest) := (j.d, Notice(j.d.phase, how) + Unregistration(j.d.phase));
    assert Chatter(rest) by { ChatterAboutDeath(d.phase, how); }
    HeardNothing(d, j.line, d);
    HeardOne(d, j.line, d, j.line, HelperEnded);
    HeardChatter(d, j.line, Emit(d, [HelperEnded]), NO_LINE, rest);
    assert Bury(d, how).log == Emit(Emit(d, [HelperEnded]), rest).log;
    SameLog(d, j.line, Emit(Emit(d, [HelperEnded]), rest), NO_LINE, Bury(d, how));
  }

  lemma ChatterAboutDeath(p: Phase, how: HelperExit)
    ensures Chatter(Notice(p, how) + Unregistration(p))
  {
  }

  lemma ExitKeeps(j: Joint, how: HelperExit)
    requires InTune(j) && Enabled(j.d, HelperExits(how)) && WellFormed(Step(j.d, HelperExits(how)))
    ensures InTune(Act(j, j.line, HelperExits(how)))
  {
    hide StopDisplay, Heard, Bury;
    var buried := Bury(j.d, how);
    DeathHeard(j, how);
    assert buried.phase == j.d.phase by { BuryKeepsPhase(j.d, how); }
    if j.d.phase.Activating? {
      var d' := buried.(phase := j.d.phase.(helperAlive := false));
      SameLog(j.d, j.line, buried, NO_LINE, d');
      ActIs(j, j.line, HelperExits(how), d', NO_LINE);
    } else {
      HeardChatter(j.d, j.line, buried, NO_LINE, Failure(j.d.phase));
      var rested := Rest(Emit(buried, Failure(j.d.phase)));
      SameLog(j.d, j.line, Emit(buried, Failure(j.d.phase)), NO_LINE, rested);
      if how.Status().HelperAuthError? {
        ActIs(j, j.line, HelperExits(how), rested, NO_LINE);
      } else {
        StopHeardOrNot(j.d, j.line, rested);
        ActIs(j, j.line, HelperExits(how), StopDisplay(rested), NO_LINE);
        StoppedInTune(rested);
      }
    }
  }

  lemma BuryKeepsPhase(d: Daemon, how: HelperExit)
    ensures Bury(d, how).phase == d.phase
  {
  }

  lemma SameLog(d: Daemon, line: Line, d1: Daemon, line1: Line, d2: Daemon)
    requires Heard(d, line, d1, line1) && d2.log == d1.log
    ensures Heard(d, line, d2, line1)
  {
  }

  // ---------- the daemon reads ----------

  /** The line after its first message has been taken off. */
  function Read(line: Line): Line
    requires line.up != []
  {
    line.(up := line.up[1..])
  }

  lemma RemarkReadKeeps(j: Joint)
    requires InTune(j) && j.line.up != [] && (j.line.up[0].Info? || j.line.up[0].Error?)
    requires Enabled(j.d, HelperSays(j.line.up[0])) && WellFormed(Step(j.d, HelperSays(j.line.up[0])))
    ensures InTune(Act(j, Read(j.line), HelperSays(j.line.up[0])))
  {
    FirstWord(j.line.up);
    assert InTune(Joint(j.d, Read(j.line)));
    var d' := Step(j.d, HelperSays(j.line.up[0]));
    var outputs := d'.log[|j.d.log|..];
    assert d' == Emit(j.d, outputs) && Chatter(outputs);
    UnmovedKeeps(j, Read(j.line), HelperSays(j.line.up[0]), j.d, outputs);
  }

  /** A question is answered exactly if the helper does not read a finger and asks one or two things. */
  lemma QuestionRead(j: Joint)
    requires InTune(j) && j.line.up != [] && j.line.up[0].PromptRequest?
    requires Enabled(j.d, HelperSays(j.line.up[0])) && WellFormed(Step(j.d, HelperSays(j.line.up[0])))
    ensures var (h, prompts) := (j.line.helper.value, j.line.up[0].prompts);
      var j' := Act(j, Read(j.line), HelperSays(j.line.up[0]));
      && InTune(j') && j'.line.up == [] && j'.line.helper == j.line.helper
      && h.at == AwaitingAnswers(prompts, h.at.opening)
      && if !h.fingerprint && 1 <= |prompts| <= 2 then
           && |j'.line.down| == 1 && j'.line.down[0].PromptReply?
           && Causes.Answered(prompts, j'.line.down[0].prompts, j.d.attempt.user, j.d.attempt.passPhrase)
         else j'.line.down == []
  {
    FirstWord(j.line.up);
    var e := HelperSays(j.line.up[0]);
    var (h, prompts) := (j.line.helper.value, j.line.up[0].prompts);
    var answers := Answers(prompts, j.d.attempt.user, j.d.attempt.passPhrase);
    if answers.Some? { Causes.AnswersAre(prompts, answers.value, j.d.attempt.user, j.d.attempt.passPhrase); }
    hide Causes.Answered;
    var line1 := Read(j.line);
    HeardNothing(j.d, line1, j.d);
    if h.fingerprint || answers.None? {
      HeardNothing(j.d, line1, Step(j.d, e));
      ActIs(j, line1, e, Step(j.d, e), line1);
    } else {
      HeardOne(j.d, line1, j.d, line1, SendReply(PromptReply(answers.value)));
      ActIs(j, line1, e, Step(j.d, e), Hear(line1, SendReply(PromptReply(answers.value))));
    }
  }

  lemma AcceptanceReadKeeps(j: Joint)
    requires InTune(j) && j.line.up != [] && j.line.up[0].Authenticated? && j.line.up[0].user != ""
    requires Enabled(j.d, HelperSays(j.line.up[0])) && WellFormed(Step(j.d, HelperSays(j.line.up[0])))
    ensures InTune(Act(j, Read(j.line), HelperSays(j.line.up[0])))
  {
    hide Release, Heard;
    FirstWord(j.line.up);
    var (e, line1) := (HelperSays(j.line.up[0]), Read(j.line));
    var (owner, reuse) := (j.d.phase.owner, j.d.phase.reuse);
    var accepted := Emit(j.d.(attempt := j.d.attempt.(user := e.message.user)), [PamAccepted(owner)]);
    var registration := if reuse.None? then [SessionRegistered] else [];
    HeardNothing(j.d, line1, j.d);
    HeardChatter(j.d, line1, j.d, line1, [PamAccepted(owner)]);
    SameLog(j.d, line1, Emit(j.d, [PamAccepted(owner)]), line1, accepted);
    if owner.Some? && owner.value.socket in j.d.transitions {
      var prepare := PrepareTransition(owner.value, j.d.attempt.sharedX11 && reuse.None?);
      HeardChatter(j.d, line1, accepted, line1, [prepare] + registration);
      SameLog(j.d, line1, Emit(accepted, [prepare] + registration), line1, Step(j.d, e));
      ActIs(j, line1, e, Step(j.d, e), line1);
    } else {
      HeardChatter(j.d, line1, accepted, line1, registration);
      AcceptedAtOnceKeeps(j, accepted, registration);
    }
  }

  lemma AcceptedAtOnceKeeps(j: Joint, accepted: Daemon, registration: seq<Output>)
    requires InTune(j) && |j.line.up| == 1 && j.line.up[0].Authenticated? && j.line.up[0].user != ""
    requires Enabled(j.d, HelperSays(j.line.up[0])) && WellFormed(Step(j.d, HelperSays(j.line.up[0])))
    requires Heard(j.d, Read(j.line), Emit(accepted, registration), Read(j.line))
    requires Step(j.d, HelperSays(j.line.up[0]))
         == Release(Emit(accepted, registration), j.d.phase.owner, j.d.phase.reuse)
    ensures InTune(Act(j, Read(j.line), HelperSays(j.line.up[0])))
  {
    hide Release, Heard, Step;
    FirstWord(j.line.up);
    var line1 := Read(j.line);
    ReleaseHeard(j.d, line1, Emit(accepted, registration), line1, j.d.phase.owner, j.d.phase.reuse);
    var line' := line1.(down := line1.down + [AuthenticatedReply]);
    ActIs(j, line1, HelperSays(j.line.up[0]), Step(j.d, HelperSays(j.line.up[0])), line');
    ReleasedInTune(Emit(accepted, registration), j.d.phase.owner, j.d.phase.reuse, line');
  }

  lemma RefusalReadKeeps(j: Joint)
    requires InTune(j) && j.line.up != [] && j.line.up[0] == Authenticated("")
    requires Enabled(j.d, HelperSays(j.line.up[0])) && WellFormed(Step(j.d, HelperSays(j.line.up[0])))
    ensures InTune(Act(j, Read(j.line), HelperSays(j.line.up[0])))
  {
    FirstWord(j.line.up);
    var e := HelperSays(j.line.up[0]);
    var d' := Step(j.d, e);
    var outputs :=
      if j.d.autologin then [if j.d.rootful then GreeterStarted else StartDisplayServer] else Failure(j.d.phase);
    HeardNothing(j.d, Read(j.line), j.d);
    HeardChatter(j.d, Read(j.line), j.d, Read(j.line), outputs);
    assert d'.log == Emit(j.d, outputs).log;
    ActIs(j, Read(j.line), e, d', Read(j.line));
  }

  lemma StatusHeard(d: Daemon, line: Line, ok: bool)
    requires line.helper.Some?
    ensures Heard(d, line, OnSessionStatus(d, ok), line.(down := line.down + [SessionStatusReply]))
  {
    var (p, line') := (d.phase, line.(down := line.down + [SessionStatusReply]));
    var told := Emit(d, [SendReply(SessionStatusReply)]);
    var outputs :=
      if ok then Success(p) + if d.greeterUp then [GreeterStopped] else [] else Failure(p) + Unregistration(p);
    HeardNothing(d, line, d);
    HeardOne(d, line, d, line, SendReply(SessionStatusReply));
    HeardChatter(d, line, told, line', outputs);
    assert OnSessionStatus(d, ok).log == Emit(told, outputs).log;
  }

  lemma StatusReadKeeps(j: Joint)
    requires InTune(j) && j.line.up != [] && j.line.up[0].SessionStatus?
    requires Enabled(j.d, HelperSays(j.line.up[0])) && WellFormed(Step(j.d, HelperSays(j.line.up[0])))
    ensures InTune(Act(j, Read(j.line), HelperSays(j.line.up[0])))
  {
    hide Heard, OnSessionStatus, Step;
    FirstWord(j.line.up);
    var (ok, line1) := (j.line.up[0].ok, Read(j.line));
    var line' := line1.(down := line1.down + [SessionStatusReply]);
    assert Step(j.d, HelperSays(j.line.up[0])) == OnSessionStatus(j.d, ok) by { StatusStep(j.d, ok); }
    StatusHeard(j.d, line1, ok);
    ActIs(j, line1, HelperSays(j.line.up[0]), OnSessionStatus(j.d, ok), line');
    assert OnSessionStatus(j.d, ok).phase == Detached(ok) by { StatusPhase(j.d, ok); }
  }

  lemma StatusStep(d: Daemon, ok: bool)
    requires WellFormed(d) && Enabled(d, HelperSays(SessionStatus(ok)))
    ensures Step(d, HelperSays(SessionStatus(ok))) == OnSessionStatus(d, ok)
  {
  }

  lemma StatusPhase(d: Daemon, ok: bool)
    ensures OnSessionStatus(d, ok).phase == Detached(ok)
  {
  }

  // ---------- the helper moves ----------

  lemma TellKeepsRemarks(up: seq<HelperMessage>, message: HelperMessage)
    requires Remarks(up)
    ensures EndsWith(up + [message], message)
    ensures message.Info? || message.Error? ==> Remarks(up + [message])
  {
    assert (up + [message])[..|up|] == up;
  }

  lemma ReplyReadKeeps(j: Joint)
    requires InTune(j) && Possible(j, HelperReads)
    ensures InTune(Next(j, HelperReads))
  {
    hide WellFormed;
    RightReply(j);
  }

  lemma TalkKeeps(j: Joint, m: Move)
    requires InTune(j) && Possible(j, m) && CanTalk(j.line)
    requires m.HelperRemarks? || m.HelperAsks? || m.HelperRefuses? || m.HelperAccepts? || m.SessionOpens?
    ensures InTune(Next(j, m))
  {
    hide WellFormed, EndsWith, Remarks;
    var message := match m
      case HelperRemarks(message) => message
      case HelperAsks(prompts) => PromptRequest(prompts)
      case HelperRefuses => Authenticated("")
      case HelperAccepts(user) => Authenticated(user)
      case SessionOpens(ok) => SessionStatus(ok)
      case _ => Info("");
    TellKeepsRemarks(j.line.up, message);
  }

  lemma SessionEndKeeps(j: Joint, code: int)
    requires InTune(j) && Possible(j, SessionEnds(code))
    ensures InTune(Next(j, SessionEnds(code)))
  {
    hide WellFormed;
  }

  // ---------- runs of both together ----------

  lemma DaemonActKeeps(j: Joint, e: Event)
    requires InTune(j) && Possible(j, DaemonActs(e)) && WellFormed(Step(j.d, e))
    ensures InTune(Act(j, j.line, e))
  {
    hide Step, InTune, WellFormed;
    match e
    case StartDisplay(_) => StartKeeps(j, e);
    case ServerReady(_) => StartKeeps(j, e);
    case EnableTransitions(socket) => AnnouncementKeeps(j, socket);
    case Login(_, _, _, _, _) => PasswordLoginKeeps(j, e);
    case FingerprintLogin(_, _, _, _) => FingerprintLoginKeeps(j, e);
    case FingerprintCancel(_) => CancelKeeps(j, e);
    case PromptCancelFires => CancelKeeps(j, e);
    case SessionsListed(_) => LookupKeeps(j, e);
    case PropertiesRead(_, _) => LookupKeeps(j, e);
    case LookupTimeout => LookupKeeps(j, e);
    case TransitionReady(_) => TransitionKeeps(j, e);
    case TransitionTimeout => TransitionKeeps(j, e);
    case UnlockAnswered(_) => ActivationKeeps(j, e);
    case SwitchAnswered(_) => ActivationKeeps(j, e);
    case ActivationTimeout => ActivationKeeps(j, e);
    case Stop => StoppingKeeps(j);
    case _ =>
  }

  lemma AnnouncementKeeps(j: Joint, socket: nat)
    requires InTune(j) && WellFormed(Step(j.d, EnableTransitions(socket)))
    ensures InTune(Act(j, j.line, EnableTransitions(socket)))
  {
    UnmovedKeeps(j, j.line, EnableTransitions(socket), j.d.(transitions := j.d.transitions + {socket}), []);
  }

  lemma StoppingKeeps(j: Joint)
    requires InTune(j) && WellFormed(Step(j.d, Stop))
    ensures InTune(Act(j, j.line, Stop))
  {
    StopKeeps(j);
  }

  lemma ReadKeeps(j: Joint)
    requires InTune(j) && j.line.up != []
    requires Enabled(j.d, HelperSays(j.line.up[0])) && WellFormed(Step(j.d, HelperSays(j.line.up[0])))
    ensures InTune(Act(j, Read(j.line), HelperSays(j.line.up[0])))
  {
    hide InTune, Step;
    match j.line.up[0]
    case Info(_) => RemarkReadKeeps(j);
    case Error(_, _) => RemarkReadKeeps(j);
    case PromptRequest(_) => QuestionRead(j);
    case Authenticated(user) => if user != "" { AcceptanceReadKeeps(j); } else { RefusalReadKeeps(j); }
    case SessionStatus(_) => StatusReadKeeps(j);
  }

  function DaemonEvent(j: Joint, m: Move): Option<Event>
    requires Possible(j, m)
  {
    match m
    case DaemonActs(e) => Some(e)
    case DaemonReads => Some(HelperSays(j.line.up[0]))
    case DaemonReaps(how) => Some(HelperExits(how))
    case _ => None
  }

  lemma MoveKeeps(j: Joint, m: Move)
    requires Runs.Sound(j.d) && InTune(j) && Possible(j, m)
    ensures Coped(j, m) && Runs.Sound(Next(j, m).d) && InTune(Next(j, m))
    ensures Next(j, m).d == if DaemonEvent(j, m).Some? then Step(j.d, DaemonEvent(j, m).value) else j.d
  {
    DaemonCanCope(j, m);
    hide InTune, Runs.Sound, Step, WellFormed, Enabled;
    var e := DaemonEvent(j, m);
    if e.Some? { SoundStep(j.d, e.value); }
    match m
    case DaemonActs(e) => DaemonActKeeps(j, e);
    case DaemonReads => ReadKeeps(j);
    case DaemonReaps(how) => ExitKeeps(j, how);
    case HelperReads => ReplyReadKeeps(j);
    case SessionEnds(code) => SessionEndKeeps(j, code);
    case _ => TalkKeeps(j, m);
  }

  lemma SoundStep(d: Daemon, e: Event)
    requires Runs.Sound(d) && WellFormed(d) && Enabled(d, e)
    ensures Runs.Sound(Step(d, e)) && WellFormed(Step(d, e))
  {
    Runs.StepKeepsSound(d, e);
  }

  predicate Course(j: Joint, moves: seq<Move>)
    decreases |moves|
  {
    moves == [] || (Possible(j, moves[0]) && Coped(j, moves[0]) && Course(Next(j, moves[0]), moves[1..]))
  }

  function After(j: Joint, moves: seq<Move>): Joint
    requires Course(j, moves)
    decreases |moves|
  {
    if moves == [] then j else After(Next(j, moves[0]), moves[1..])
  }

  /** The daemon's share of a course. */
  function Events(j: Joint, moves: seq<Move>): seq<Event>
    requires Course(j, moves)
    decreases |moves|
  {
    if moves == [] then []
    else
      var e := DaemonEvent(j, moves[0]);
      (if e.Some? then [e.value] else []) + Events(Next(j, moves[0]), moves[1..])
  }

  function Beginning(rootful: bool): Joint {
    Joint(Initial(rootful), NO_LINE)
  }

  lemma {:induction false} CourseKeeps(j: Joint, moves: seq<Move>)
    requires Runs.Sound(j.d) && InTune(j) && Course(j, moves)
    ensures Runs.Sound(After(j, moves).d) && InTune(After(j, moves))
    ensures Runs.Feasible(j.d, Events(j, moves)) && Runs.Run(j.d, Events(j, moves)) == After(j, moves).d
    decreases |moves|
  {
    if moves != [] {
      hide InTune, Runs.Sound, Step, Next;
      var j' := Next(j, moves[0]);
      MoveKeeps(j, moves[0]);
      CourseKeeps(j', moves[1..]);
      var e := DaemonEvent(j, moves[0]);
      if e.Some? {
        assert ([e.value] + Events(j', moves[1..]))[1..] == Events(j', moves[1..]);
      } else {
        assert [] + Events(j', moves[1..]) == Events(j', moves[1..]);
      }
    }
  }

  /** In every reachable state of both programs together: the daemon copes with whatever the helper
      has sent; at most one reply is under way, the one the helper waits for; while the greeter
      animates, the helper waits; and what the daemon does is a run of the login protocol. */
  lemma HandshakeHolds(rootful: bool, moves: seq<Move>)
    requires Course(Beginning(rootful), moves)
    ensures var j := After(Beginning(rootful), moves);
      && (forall m | Possible(j, m) :: Coped(j, m))
      && (j.line.down != [] ==>
          |j.line.down| == 1 && j.line.helper.Some? && Expects(j.line.helper.value.at, j.line.down[0]))
      && (j.d.phase.Held? ==> j.line.helper.Some? && j.line.helper.value.at.AwaitingRelease? && j.line.down == [])
      && Runs.Feasible(Initial(rootful), Events(Beginning(rootful), moves))
      && j.d == Runs.Run(Initial(rootful), Events(Beginning(rootful), moves))
  {
    Runs.InitialIsSound(rootful);
    CourseKeeps(Beginning(rootful), moves);
    var j := After(Beginning(rootful), moves);
    forall m | Possible(j, m) ensures Coped(j, m) { DaemonCanCope(j, m); }
    if j.line.down != [] { RightReply(j); }
    if j.d.phase.Held? { HeldHelperWaits(j); }
  }

  // ---------- acceptance and unanswered questions ----------

  /** The daemon takes a login for accepted only when PAM has accepted it in the helper that was
      started for it. */
  lemma AcceptedByPam(j: Joint, m: Move, owner: Option<Request>)
    requires Runs.Sound(j.d) && InTune(j) && Possible(j, m)
    requires Coped(j, m) && j.d.log <= Next(j, m).d.log && PamAccepted(owner) in Next(j, m).d.log[|j.d.log|..]
    ensures m.DaemonReads? && j.line.helper.Some? && j.line.helper.value.at.AwaitingRelease?
    ensures owner == Owner(j.d.phase) && j.line.helper.value.fingerprint == (owner.Some? && owner.value.fingerprint)
  {
    hide Step, InTune, Runs.Sound, WellFormed;
    MoveKeeps(j, m);
    var e := DaemonEvent(j, m);
    if e.Some? {
      Causes.EveryOutputHasItsCause(j.d, e.value);
      assert Causes.Cause(j.d, e.value, PamAccepted(owner));
      AcceptanceIsHis(j);
    }
  }

  lemma AcceptanceIsHis(j: Joint)
    requires InTune(j) && j.line.up != [] && j.line.up[0].Authenticated? && j.line.up[0].user != ""
    ensures j.line.helper.Some? && j.line.helper.value.at == AwaitingRelease(j.line.up[0].user)
    ensures j.line.helper.value.fingerprint == (Owner(j.d.phase).Some? && Owner(j.d.phase).value.fingerprint)
  {
    FirstWord(j.line.up);
  }

  /** What becomes of a line while outputs are heard: the same helper with more replies, or another. */
  lemma {:induction false} HearKeepsHelper(line: Line, outputs: seq<Output>)
    ensures var line' := HearAll(line, outputs);
      || line'.helper.None? || line'.helper.value.at.Authenticating?
      || (line'.helper == line.helper && line'.up == line.up && line.down <= line'.down
          && forall r <- line'.down[|line.down|..] :: SendReply(r) in outputs)
  {
    if outputs != [] {
      var before := outputs[..|outputs| - 1];
      HearKeepsHelper(line, before);
      assert forall o <- before :: o in outputs;
      assert outputs[|outputs| - 1] in outputs;
    }
  }

  predicate Unanswered(line: Line) {
    line.helper.Some? && line.helper.value.at.AwaitingAnswers? && line.up == [] && line.down == []
  }

  /** A question that was not answered when the daemon read it is never answered: nothing changes
      on the line until that helper is gone. */
  lemma UnansweredForGood(j: Joint, m: Move)
    requires Runs.Sound(j.d) && InTune(j) && Unanswered(j.line) && Possible(j, m)
    ensures Coped(j, m)
    ensures var line' := Next(j, m).line;
      line' == j.line || line'.helper.None? || line'.helper.value.at.Authenticating?
  {
    hide Step, Runs.Sound, WellFormed;
    MoveKeeps(j, m);
    var e := DaemonEvent(j, m).value;
    Causes.EveryOutputHasItsCause(j.d, e);
    var outputs := Step(j.d, e).log[|j.d.log|..];
    assert forall r: Reply :: SendReply(r) in outputs ==> Causes.Cause(j.d, e, SendReply(r));
    HearKeepsHelper(j.line, outputs);
    var line' := Next(j, m).line;
    assert line'.down[0..] == line'.down;
    if line'.helper == j.line.helper { OnlyReleases(line'.down); }
  }

  lemma OnlyReleases(down: seq<Reply>)
    ensures (forall r <- down :: r.AuthenticatedReply?) && (down == [] || down[0].PromptReply?) ==> down == []
  {
    assert down == [] || down[0] in down;
  }

  /** So three questions at once, as for an expired password, leave a password login waiting. */
  lemma ThreeQuestionsAreNotAnswered(j: Joint, prompts: seq<Prompt>)
    requires Runs.Sound(j.d) && InTune(j) && CanTalk(j.line) && j.line.up == []
    ensures var asked := Next(j, HelperAsks(prompts));
      && Possible(asked, DaemonReads) && Coped(asked, DaemonReads)
      && (Unanswered(Next(asked, DaemonReads).line) <==>
          j.line.helper.value.fingerprint || |prompts| == 0 || |prompts| >= 3)
  {
    MoveKeeps(j, HelperAsks(prompts));
    var asked := Next(j, HelperAsks(prompts));
    assert asked.line.up == [PromptRequest(prompts)];
    DaemonCanCope(asked, DaemonReads);
    SoundStep(asked.d, HelperSays(PromptRequest(prompts)));
    QuestionRead(asked);
    hide Step, InTune, Runs.Sound, WellFormed, Causes.Answered;
  }

  // ---------- how a helper leaves ----------

  /** The helper is gone by itself, with this code. */
  ghost predicate LeavesWith(j: Joint, code: int) {
    && InTune(j) && j.line.helper.Some? && j.line.helper.value.at == Exiting(code)
    && forall c :: Possible(j, DaemonReaps(Exited(c))) <==> c == code
  }

  /** Reading a message that ends what the daemon does for a helper leaves the helper where it is. */
  lemma SameHelper(j: Joint)
    requires Runs.Sound(j.d) && InTune(j) && Possible(j, DaemonReads) && Coped(j, DaemonReads)
    requires Step(j.d, HelperSays(j.line.up[0])).phase.Detached?
    ensures Next(j, DaemonReads).line.helper == j.line.helper && InTune(Next(j, DaemonReads))
    ensures Next(j, DaemonReads).d == Step(j.d, HelperSays(j.line.up[0]))
  {
    MoveKeeps(j, DaemonReads);
    var (d', line) := (Step(j.d, HelperSays(j.line.up[0])), j.line.(up := j.line.up[1..]));
    hide Step;
    if j.d.log <= d'.log { HearKeepsHelper(line, d'.log[|j.d.log|..]); }
  }

  /** After PAM has refused, the helper leaves with the code that keeps the display and its greeter. */
  lemma RefusalKeepsDisplay(j: Joint)
    requires Runs.Sound(j.d) && InTune(j) && Possible(j, HelperRefuses) && j.line.up == []
    ensures var asked := Next(j, HelperRefuses);
      && Possible(asked, DaemonReads) && Coped(asked, DaemonReads)
      && var told := Next(asked, DaemonReads);
        && LeavesWith(told, 1) && WellFormed(told.d) && Enabled(told.d, HelperExits(Exited(1)))
        && var gone := Step(told.d, HelperExits(Exited(1)));
           gone.started == told.d.started && gone.greeterUp == told.d.greeterUp && gone.ended == told.d.ended
  {
    MoveKeeps(j, HelperRefuses);
    var asked := Next(j, HelperRefuses);
    assert asked.line.up == [Authenticated("")];
    DaemonCanCope(asked, DaemonReads);
    RefusedIsDetached(asked.d);
    SameHelper(asked);
    ExitKeepsDisplay(Next(asked, DaemonReads).d);
    hide Step, Next, InTune, Runs.Sound, WellFormed;
  }

  /** A session could not be opened, and the daemon has read so. */
  ghost predicate ToldOfFailure(j: Joint) {
    && Runs.Sound(j.d) && InTune(j) && j.d.phase == Detached(false)
    && j.line.helper.Some? && j.line.helper.value.at == AwaitingReceipt(false) && j.line.up == []
  }

  lemma FailureIsRead(j: Joint)
    requires Runs.Sound(j.d) && InTune(j) && Possible(j, SessionOpens(false)) && j.line.up == []
    ensures var asked := Next(j, SessionOpens(false));
      Possible(asked, DaemonReads) && Coped(asked, DaemonReads) && ToldOfFailure(Next(asked, DaemonReads))
  {
    MoveKeeps(j, SessionOpens(false));
    var asked := Next(j, SessionOpens(false));
    assert asked.line.up == [SessionStatus(false)];
    DaemonCanCope(asked, DaemonReads);
    MoveKeeps(asked, DaemonReads);
    FailedIsDetached(asked.d);
    SameHelper(asked);
    var told := Next(asked, DaemonReads);
    assert told.line.helper.value.at == AwaitingReceipt(false);
    assert InTune(told);
    NoMessageLeft(told);
    hide Step, Next, InTune, Runs.Sound, WellFormed;
  }

  lemma NoMessageLeft(j: Joint)
    requires InTune(j) && j.d.phase == Detached(false) && j.line.helper.Some?
    requires j.line.helper.value.at == AwaitingReceipt(false)
    ensures j.line.up == []
  {
  }

  /** A session that cannot be opened ends in a helper that leaves with another code, and the display is
      stopped. */
  lemma FailedSessionStopsDisplay(j: Joint)
    requires ToldOfFailure(j)
    ensures Possible(j, HelperReads) && Coped(j, HelperReads)
    ensures var left := Next(j, HelperReads);
      && LeavesWith(left, 2) && WellFormed(left.d) && Enabled(left.d, HelperExits(Exited(2)))
      && !Step(left.d, HelperExits(Exited(2))).started
      && (left.d.started ==> Step(left.d, HelperExits(Exited(2))).ended)
  {
    assert j.line.down == [SessionStatusReply];
    MoveKeeps(j, HelperReads);
    ExitStopsDisplay(j.d);
    hide Step, Runs.Sound, WellFormed;
  }

  /** A helper that was only to authenticate, for a session that is reused, leaves with success. */
  lemma ReuseHelperLeaves(j: Joint)
    requires Runs.Sound(j.d) && InTune(j) && j.line.helper.Some? && j.line.helper.value.path == ""
    requires j.line.helper.value.at.AwaitingRelease? && j.line.up == [] && j.line.down != []
    ensures Possible(j, HelperReads) && Coped(j, HelperReads) && LeavesWith(Next(j, HelperReads), 0)
  {
    MoveKeeps(j, HelperReads);
  }

  lemma FailedIsDetached(d: Daemon)
    requires WellFormed(d) && Enabled(d, HelperSays(SessionStatus(false)))
    ensures Step(d, HelperSays(SessionStatus(false))).phase == Detached(false)
  {
  }

  lemma ExitStopsDisplay(d: Daemon)
    requires WellFormed(d) && d.phase == Detached(false)
    ensures Enabled(d, HelperExits(Exited(2)))
    ensures var d' := Step(d, HelperExits(Exited(2))); !d'.started && (d.started ==> d'.ended)
  {
  }

  lemma RefusedIsDetached(d: Daemon)
    requires WellFormed(d) && Enabled(d, HelperSays(Authenticated("")))
    ensures Step(d, HelperSays(Authenticated(""))).phase == Detached(false)
  {
  }

  lemma ExitKeepsDisplay(d: Daemon)
    requires WellFormed(d) && d.phase == Detached(false)
    ensures Enabled(d, HelperExits(Exited(1)))
    ensures var d' := Step(d, HelperExits(Exited(1)));
      d'.started == d.started && d'.greeterUp == d.greeterUp && d'.ended == d.ended
  {
  }
}