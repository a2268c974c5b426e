/** The attempt a display is busy with, told from the history of events: which request or automatic login
    began it, what name PAM has reported, and which session was found for it. What the helper is started
    with, which prompts are answered how, and which session is reused follow from that alone. */
module DisplayStory {
  import opened LoginTypes
  import opened DisplaySpec
  import opened Runs = DisplaySafety
  import opened DisplayCauses

  datatype Story = NoStory | Story(begun: Event, user: string, found: Option<string>)

  function News(d: Daemon, e: Event): seq<Output>
    requires WellFormed(d) && Enabled(d, e)
  {
    if d.log <= Step(d, e).log then Step(d, e).log[|d.log|..] else []
  }

  /** An attempt begins: a helper is started, or a session is searched for. */
  predicate Began(d: Daemon, e: Event)
    requires WellFormed(d) && Enabled(d, e)
  {
    Attempts(e) && exists o <- News(d, e) :: o.HelperStarted? || o.ListSessions?
  }

  function NextStory(story: Story, d: Daemon, e: Event): Story
    requires WellFormed(d) && Enabled(d, e)
  {
    if Began(d, e) then Story(e, UserOf(e), None)
    else if story.NoStory? || !Attempts(story.begun) then story
    else if Accepts(e) then story.(user := e.message.user)
    else if e.PropertiesRead? && e.properties.Some? && Fits(e.properties.value, SessionOf(story.begun).xdgType) then
      story.(found := Some(e.entry.id))
    else story
  }

  function Tale(d: Daemon, events: seq<Event>, story: Story): Story
    requires Feasible(d, events)
    decreases |events|
  {
    if events == [] then story else Tale(Step(d, events[0]), events[1..], NextStory(story, d, events[0]))
  }

  // ---------- the display's fields fit the story ----------

  ghost predicate FitsSearch(search: Search, begun: Event)
    requires Attempts(begun)
  {
    match search
    case Listing(user, sessionType) => user == UserOf(begun) && sessionType == SessionOf(begun).xdgType
    case Collecting(sessionType, waiting) =>
      sessionType == SessionOf(begun).xdgType && forall x <- waiting :: x.userName == UserOf(begun)
  }

  ghost predicate FitsPhase(p: Phase, story: Story)
    requires story.Story? && Attempts(story.begun)
  {
    && (Owner(p).Some? ==> Owner(p) == OwnerOf(story.begun))
    && match p
       case LookingUp(owner, search) =>
         owner == OwnerOf(story.begun) && story.found.None? && story.user == UserOf(story.begun)
         && FitsSearch(search, story.begun)
       case Proving(owner, reuse) =>
         owner == OwnerOf(story.begun) && reuse == story.found && story.user == UserOf(story.begun)
       case Held(_, reuse) => reuse == story.found
       case Activating(_, sid, _, _) => story.found == Some(sid)
       case _ => true
  }

  ghost predicate StoryFits(d: Daemon, story: Story) {
    && (story.Story? ==> Attempts(story.begun) && IsFinger(OwnerOf(story.begun)) == story.begun.FingerprintLogin?)
    && (!d.phase.Idle? ==>
        && story.Story? && d.attempt.Attempt? && FitsPhase(d.phase, story)
        && d.attempt.user == story.user && d.attempt.passPhrase == PassPhraseOf(story.begun)
        && d.attempt.sharedX11 == (SessionOf(story.begun).x11 && d.rootful)
        && (d.phase.LookingUp? ==> d.attempt.path == SessionOf(story.begun).exec))
  }

  lemma NewsAre(d: Daemon, e: Event)
    requires WellFormed(d) && Enabled(d, e)
    ensures Step(d, e).log == d.log + News(d, e)
    ensures forall o :: o in News(d, e) <==> Cause(d, e, o)
  {
    EveryOutputHasItsCause(d, e);
    hide Step, WellFormed, Enabled, Cause;
  }

  lemma BeganIs(d: Daemon, e: Event)
    requires WellFormed(d) && Enabled(d, e)
    ensures Began(d, e) <==> Begins(d, e)
  {
    NewsAre(d, e);
    hide News, Step, WellFormed, Enabled, Cause;
    if Attempts(e) {
      HelperCause(d, e);
      if Begins(d, e) {
        assert Cause(d, e, if MayReuse(e) then ListSessions
                           else HelperStarted(UserOf(e), SessionOf(e).exec, OwnerOf(e).None?, e.FingerprintLogin?));
      }
    }
  }

  lemma HelperCause(d: Daemon, e: Event)
    requires Attempts(e)
    ensures forall o | Cause(d, e, o) :: o.HelperStarted? || o.ListSessions? ==> Begins(d, e)
    ensures Begins(d, e) ==> Cause(d, e, if MayReuse(e) then ListSessions
      else HelperStarted(UserOf(e), SessionOf(e).exec, OwnerOf(e).None?, e.FingerprintLogin?))
  {
  }

  /** The display that an attempt begins on, and what it is after that. */
  lemma BeginFits(d: Daemon, e: Event)
    requires Attempts(e) && IsFinger(OwnerOf(e)) == e.FingerprintLogin?
    ensures var d' := Begin(d, OwnerOf(e), UserOf(e), PassPhraseOf(e), SessionOf(e), MayReuse(e));
      StoryFits(d', Story(e, UserOf(e), None)) && d'.rootful == d.rootful && d'.transitions == d.transitions
      && d'.issued == d.issued && d'.promptCancels == d.promptCancels
  {
  }

  lemma BeginStep(d: Daemon, e: Event)
    requires WellFormed(d) && Enabled(d, e) && Begins(d, e)
    ensures StoryFits(Step(d, e), Story(e, UserOf(e), None))
  {
    match e
    case Login(request, _, _, _, _) =>
      var before := d.(issued := d.issued + 1);
      if Cancellable(d.phase) {
        before := Emit(CancelFingerprint(before), [QuietlyCancelled(Owner(d.phase).value)]);
      }
      BeginFits(before, e);
      hide Begin, StoryFits, WellFormed;
    case FingerprintLogin(request, _, _, _) =>
      BeginFits(d.(issued := d.issued + 1), e);
      hide Begin, StoryFits, WellFormed;
    case StartDisplay(plan) =>
      BeginFits(d.(started := true, autologin := true), e);
      hide Begin, StoryFits, WellFormed;
    case ServerReady(plan) =>
      BeginFits(d.(started := true, autologin := true), e);
      hide Begin, StoryFits, WellFormed;
    case _ =>
  }

  // ---------- every step ----------

  /** Requests that are refused leave the display as it was or without the finger it listened for. */
  lemma RefusalFits(d: Daemon, e: Event, story: Story)
    requires WellFormed(d) && Enabled(d, e) && StoryFits(d, story) && !Begins(d, e)
    requires IsRequest(e) || e.StartDisplay? || e.ServerReady? || e.FingerprintCancel? || e.PromptCancelFires?
      || e.EnableTransitions?
    ensures StoryFits(Step(d, e), story)
  {
    hide FitsSearch;
  }

  /** What hardly any event changes otherwise. */
  predicate Alike(d: Daemon, d': Daemon) {
    d'.rootful == d.rootful && d'.transitions == d.transitions && d'.issued == d.issued
    && d'.promptCancels == d.promptCancels
  }

  /** A fingerprint login has been asked something; it is to be called off. */
  predicate Misasked(d: Daemon, e: Event) {
    e.HelperSays? && e.message.PromptRequest? && e.message.prompts != [] && IsFinger(Owner(d.phase))
  }

  /** The announced connections, the numbers of requests and of cancels to come, as an event leaves them. */
  function Counted(d: Daemon, e: Event): Daemon
    requires e.PromptCancelFires? ==> d.promptCancels > 0
  {
    d.(transitions := if e.EnableTransitions? then d.transitions + {e.socket} else d.transitions,
       issued := if IsRequest(e) then d.issued + 1 else d.issued,
       promptCancels := if Misasked(d, e) then d.promptCancels + 1
                        else if e.PromptCancelFires? then d.promptCancels - 1 else d.promptCancels)
  }

  /** The course of a login once its helper runs: what it is about stays the same. */
  predicate Onward(p: Phase, p': Phase) {
    match p'
    case Idle => true
    case Detached(_) => true
    case Opening(owner) => owner == Owner(p)
    case Held(owner, reuse) => p == p' || p == Proving(owner, reuse)
    case Activating(owner, sid, _, _) =>
      || p == Proving(owner, Some(sid)) || p == Held(owner, Some(sid))
      || (p.Activating? && p.owner == owner && p.sid == sid)
    case _ => p == p'
  }

  lemma OnwardFits(p: Phase, p': Phase, story: Story)
    requires story.Story? && Attempts(story.begun) && FitsPhase(p, story) && Onward(p, p')
    ensures FitsPhase(p', story)
  {
    hide FitsSearch;
  }

  lemma TalkIsOnward(d: Daemon, message: HelperMessage)
    requires WellFormed(d) && Enabled(d, HelperSays(message))
    ensures var d' := OnHelperSays(d, message);
      && Onward(d.phase, d'.phase) && !d.phase.Idle? && d.attempt.Attempt?
      && Alike(Counted(d, HelperSays(message)), d')
      && if message.Authenticated? && message.user != "" then
           d'.attempt == d.attempt.(user := message.user) && !d'.phase.Proving?
         else d'.attempt == d.attempt
  {
    if message.Authenticated? && message.user != "" {
      AcceptanceIsOnward(d, message.user);
      hide OnAccepted, WellFormed, Onward;
    } else {
      hide Failure, Success, Unregistration, Answers;
    }
  }

  lemma AcceptanceIsOnward(d: Daemon, user: string)
    requires d.phase.Proving? && d.attempt.Attempt?
    ensures var d' := OnAccepted(d, user);
      && Onward(d.phase, d'.phase) && Alike(d, d') && d'.attempt == d.attempt.(user := user) && !d'.phase.Proving?
  {
    forall d1: Daemon | d1.phase == d.phase
      ensures var d' := Release(d1, d.phase.owner, d.phase.reuse);
        Onward(d.phase, d'.phase) && Alike(d1, d') && d'.attempt == d1.attempt && !d'.phase.Proving?
    {
      ReleaseIsOnward(d1);
    }
    hide Release;
  }

  lemma ReleaseIsOnward(d: Daemon)
    requires d.phase.Proving?
    ensures var d' := Release(d, d.phase.owner, d.phase.reuse);
      Onward(d.phase, d'.phase) && Alike(d, d') && d'.attempt == d.attempt && !d'.phase.Proving?
  {
  }

  lemma TalkFits(d: Daemon, message: HelperMessage, story: Story)
    requires WellFormed(d) && Enabled(d, HelperSays(message)) && StoryFits(d, story)
    ensures var story' := if message.Authenticated? && message.user != "" then story.(user := message.user) else story;
      story.Story? && StoryFits(OnHelperSays(d, message), story')
  {
    TalkIsOnward(d, message);
    var p' := OnHelperSays(d, message).phase;
    assert !d.phase.LookingUp?;
    hide WellFormed, OnHelperSays, Onward;
    OnwardFits(d.phase, p', story);
    hide FitsSearch;
  }

  predicate Ending(e: Event) {
    e.TransitionReady? || e.TransitionTimeout? || e.UnlockAnswered? || e.SwitchAnswered? || e.ActivationTimeout?
      || e.HelperExits? || e.Stop?
  }

  lemma StopIsOnward(d: Daemon)
    ensures var d' := StopDisplay(d);
      Alike(d, d') && (d'.phase.Idle? || (d'.phase == d.phase && d'.attempt == d.attempt))
  {
  }

  lemma TransitionIsOnward(d: Daemon, e: Event)
    requires WellFormed(d) && Enabled(d, e) && (e.TransitionReady? || e.TransitionTimeout?)
    ensures var d' := Step(d, e);
      Onward(d.phase, d'.phase) && Alike(d, d') && d'.attempt == d.attempt
  {
  }

  lemma ExitIsOnward(d: Daemon, how: HelperExit)
    requires HelperAlive(d.phase)
    ensures var d' := OnHelperExits(d, how);
      Onward(d.phase, d'.phase) && Alike(d, d') && (d'.phase.Idle? || d'.attempt == d.attempt)
  {
    StopIsOnward(Rest(Emit(Bury(d, how), Failure(d.phase))));
    hide StopDisplay, Failure, Unregistration, Notice;
  }

  lemma EndIsOnward(d: Daemon, e: Event)
    requires WellFormed(d) && Enabled(d, e) && Ending(e)
    ensures var d' := Step(d, e);
      Onward(d.phase, d'.phase) && Alike(d, d') && (d'.phase.Idle? || d'.attempt == d.attempt)
  {
    if e.TransitionReady? || e.TransitionTimeout? {
      TransitionIsOnward(d, e);
    } else if e.HelperExits? {
      ExitIsOnward(d, e.how);
      hide OnHelperExits, WellFormed, Onward;
    } else {
      StopIsOnward(d);
      forall d1: Daemon { StopIsOnward(d1); }
      hide StopDisplay, Failure, Success;
    }
  }

  lemma StepOfIdle(d: Daemon, e: Event)
    requires WellFormed(d) && Enabled(d, e) && Ending(e) && d.phase.Idle?
    ensures Step(d, e).phase.Idle?
  {
  }

  lemma EndFits(d: Daemon, e: Event, story: Story)
    requires WellFormed(d) && Enabled(d, e) && StoryFits(d, story) && Ending(e)
    ensures StoryFits(Step(d, e), story)
  {
    EndIsOnward(d, e);
    var p' := Step(d, e).phase;
    if d.phase.Idle? { StepOfIdle(d, e); }
    hide WellFormed, Step, Onward, FitsSearch;
    if !d.phase.Idle? && !p'.Idle? { OnwardFits(d.phase, p', story); }
  }

  lemma FinishFits(d: Daemon, story: Story, found: Option<string>)
    requires WellFormed(d) && d.phase.LookingUp? && StoryFits(d, story)
    ensures StoryFits(FinishLookup(d, found), story.(found := found))
  {
    hide FitsSearch;
  }

  lemma ListFits(d: Daemon, e: Event, story: Story)
    requires WellFormed(d) && Enabled(d, e) && StoryFits(d, story) && e.SessionsListed?
    ensures StoryFits(Step(d, e), story)
  {
    FinishFits(d, story, None);
    var user := d.phase.search.user;
    if e.reply.Some? {
      forall x <- Candidates(e.reply.value, user) ensures x.userName == user { CandidatesAre(e.reply.value, user, x); }
    }
    hide FinishLookup, Candidates;
  }

  lemma PropertiesFit(d: Daemon, e: Event, story: Story)
    requires WellFormed(d) && Enabled(d, e) && StoryFits(d, story) && e.PropertiesRead?
    ensures StoryFits(Step(d, e), NextStory(story, d, e)) && !Began(d, e)
  {
    FinishFits(d, story, None);
    FinishFits(d, story, Some(e.entry.id));
    hide FinishLookup, News;
  }

  /** Every step leads to what the story of the step tells. */
  lemma StepFits(d: Daemon, e: Event, story: Story)
    requires WellFormed(d) && Enabled(d, e) && StoryFits(d, story)
    ensures StoryFits(Step(d, e), NextStory(story, d, e))
  {
    BeganIs(d, e);
    hide Step, StoryFits, WellFormed, Began;
    if Begins(d, e) {
      BeginStep(d, e);
    } else if e.PropertiesRead? {
      PropertiesFit(d, e, story);
    } else if e.SessionsListed? {
      ListFits(d, e, story);
    } else if e.LookupTimeout? {
      TimeoutFits(d, e, story);
    } else if e.HelperSays? {
      SayingFits(d, e, story);
    } else if Ending(e) {
      EndFits(d, e, story);
    } else {
      RefusalFits(d, e, story);
    }
  }

  lemma TimeoutFits(d: Daemon, e: Event, story: Story)
    requires WellFormed(d) && Enabled(d, e) && StoryFits(d, story) && e.LookupTimeout?
    ensures StoryFits(Step(d, e), story)
  {
    FinishFits(d, story, None);
    assert story.(found := None) == story;
  }

  lemma SayingFits(d: Daemon, e: Event, story: Story)
    requires WellFormed(d) && Enabled(d, e) && StoryFits(d, story) && e.HelperSays? && !Began(d, e)
    ensures StoryFits(Step(d, e), NextStory(story, d, e))
  {
    TalkFits(d, e.message, story);
    assert Step(d, e) == OnHelperSays(d, e.message);
    assert Attempts(story.begun);
    hide Step, OnHelperSays, FitsPhase, WellFormed, Began;
  }

  lemma {:induction false} TaleFits(d: Daemon, events: seq<Event>, story: Story)
    requires Feasible(d, events) && StoryFits(d, story)
    ensures StoryFits(Run(d, events), Tale(d, events, story)) && Run(d, events).rootful == d.rootful
    decreases |events|
  {
    hide Step, StoryFits, WellFormed, NextStory;
    if events != [] {
      StepFits(d, events[0], story);
      StepIsAlike(d, events[0]);
      TaleFits(Step(d, events[0]), events[1..], NextStory(story, d, events[0]));
    }
  }

  lemma StepIsAlike(d: Daemon, e: Event)
    requires WellFormed(d) && Enabled(d, e)
    ensures Alike(Counted(d, e), Step(d, e))
  {
    if e.HelperSays? {
      TalkIsOnward(d, e.message);
      hide OnHelperSays, WellFormed, Onward;
    } else if Ending(e) {
      EndIsOnward(d, e);
      hide Step, WellFormed, Onward;
    } else if IsRequest(e) {
      RequestIsAlike(d, e);
      hide Step, WellFormed;
    } else if Searches(e) {
      SearchIsAlike(d, e);
      hide Step, WellFormed;
    } else {
      hide WellFormed, Death, Cancellable;
    }
  }

  lemma SearchIsAlike(d: Daemon, e: Event)
    requires WellFormed(d) && Enabled(d, e) && Searches(e)
    ensures Alike(d, Step(d, e))
  {
    FinishIsAlike(d, None);
    if e.PropertiesRead? { FinishIsAlike(d, Some(e.entry.id)); }
    hide FinishLookup, Candidates, PropertyQueries, WellFormed;
  }

  lemma FinishIsAlike(d: Daemon, found: Option<string>)
    requires d.phase.LookingUp? && d.attempt.Attempt?
    ensures Alike(d, FinishLookup(d, found))
  {
  }

  lemma RequestIsAlike(d: Daemon, e: Event)
    requires WellFormed(d) && Enabled(d, e) && IsRequest(e)
    ensures Alike(d.(issued := d.issued + 1), Step(d, e))
  {
    var before := d.(issued := d.issued + 1);
    BeginIsAlike(before, e);
    if Cancellable(d.phase) {
      var r := Owner(d.phase).value;
      BeginIsAlike(Emit(CancelFingerprint(before), [QuietlyCancelled(r)]), e);
      assert Alike(before, Emit(CancelFingerprint(before), [QuietlyCancelled(r)]));
      hide CancelFingerprint;
    }
    hide Begin, WellFormed, Cancellable, Busy;
  }

  lemma BeginIsAlike(d: Daemon, e: Event)
    requires IsRequest(e)
    ensures Alike(d, Begin(d, OwnerOf(e), UserOf(e), PassPhraseOf(e), SessionOf(e), MayReuse(e)))
  {
  }

  /** A question in a fingerprint login schedules a cancel, and nothing else does; each that fires is one
      less to come. */
  lemma CancelIsScheduled(d: Daemon, e: Event)
    requires WellFormed(d) && Enabled(d, e)
    ensures Step(d, e).promptCancels == d.promptCancels + (if Misasked(d, e) then 1 else 0)
      - (if e.PromptCancelFires? then 1 else 0)
  {
    StepIsAlike(d, e);
    hide Step, WellFormed;
  }

  // ---------- what follows over every run ----------

  /** What the history tells of the attempt under way. */
  function StoryOf(rootful: bool, events: seq<Event>): Story
    requires Feasible(Initial(rootful), events)
  {
    Tale(Initial(rootful), events, NoStory)
  }

  lemma RunFits(rootful: bool, events: seq<Event>)
    requires Feasible(Initial(rootful), events)
    ensures var d := Run(Initial(rootful), events);
      StoryFits(d, StoryOf(rootful, events)) && WellFormed(d) && d.rootful == rootful
  {
    InitialIsSound(rootful);
    RunKeepsSound(Initial(rootful), events);
    assert StoryFits(Initial(rootful), NoStory);
    TaleFits(Initial(rootful), events, NoStory);
  }

  /** The answers to a helper's question, for every run: one prompt is answered with the pass phrase of
      the request that began the attempt, two with the user's name and that pass phrase, each as it was
      asked; any other number, and any question of a fingerprint login, with nothing. */
  lemma PromptsAreAnswered(rootful: bool, events: seq<Event>, prompts: seq<Prompt>) returns (answers: seq<Prompt>)
    requires Feasible(Initial(rootful), events)
    requires Enabled(Run(Initial(rootful), events), HelperSays(PromptRequest(prompts)))
    ensures var (d, story) := (Run(Initial(rootful), events), StoryOf(rootful, events));
      && story.Story? && Attempts(story.begun) && WellFormed(d)
      && News(d, HelperSays(PromptRequest(prompts)))
        == (if !IsFinger(Owner(d.phase)) && 1 <= |prompts| <= 2 then [SendReply(PromptReply(answers))] else [])
      && (1 <= |prompts| <= 2 ==> Answered(prompts, answers, story.user, PassPhraseOf(story.begun)))
  {
    RunFits(rootful, events);
    var (d, story) := (Run(Initial(rootful), events), StoryOf(rootful, events));
    answers := if 1 <= |prompts| <= 2 then Answers(prompts, story.user, PassPhraseOf(story.begun)).value else [];
    AnswersAre(prompts, answers, story.user, PassPhraseOf(story.begun));
    QuestionNews(d, prompts);
  }

  lemma QuestionNews(d: Daemon, prompts: seq<Prompt>)
    requires WellFormed(d) && Enabled(d, HelperSays(PromptRequest(prompts)))
    ensures d.attempt.Attempt?
    ensures News(d, HelperSays(PromptRequest(prompts))) ==
      if IsFinger(Owner(d.phase)) then []
      else match Answers(prompts, d.attempt.user, d.attempt.passPhrase)
           case None => []
           case Some(answers) => [SendReply(PromptReply(answers))]
  {
    hide Answers;
  }

  /** So a password login is answered with the pass phrase that came with it, and until PAM has reported
      another name, with the name that came with it. */
  lemma PasswordIsSent(rootful: bool, events: seq<Event>, i: nat, prompts: seq<Prompt>)
    returns (answers: seq<Prompt>, name: string)
    requires Feasible(Initial(rootful), events) && i < |events| && events[i].Login?
    requires Owner(Run(Initial(rootful), events).phase) == Some(events[i].request) && 1 <= |prompts| <= 2
    requires Enabled(Run(Initial(rootful), events), HelperSays(PromptRequest(prompts)))
    ensures var d := Run(Initial(rootful), events);
      && WellFormed(d) && News(d, HelperSays(PromptRequest(prompts))) == [SendReply(PromptReply(answers))]
      && Answered(prompts, answers, name, events[i].passPhrase) && (d.phase.Proving? ==> name == events[i].user)
  {
    answers := PromptsAreAnswered(rootful, events, prompts);
    RequestBegan(rootful, events, i);
    RunFits(rootful, events);
    name := StoryOf(rootful, events).user;
    hide News, StoryOf, WellFormed, Answered;
  }

  lemma StartedBy(d: Daemon, e: Event, user: string, path: string, autologin: bool, fingerprint: bool)
    requires WellFormed(d) && Enabled(d, e) && HelperStarted(user, path, autologin, fingerprint) in News(d, e)
    ensures StartsHelper(d, e, user, path, autologin, fingerprint)
  {
    NewsAre(d, e);
    hide News, Step, WellFormed, StartsHelper;
    assert Cause(d, e, HelperStarted(user, path, autologin, fingerprint));
  }

  lemma HelperFits(d: Daemon, e: Event, story: Story, user: string, path: string, autologin: bool, fingerprint: bool)
    requires WellFormed(d) && Enabled(d, e) && StoryFits(d, story)
    requires StartsHelper(d, e, user, path, autologin, fingerprint)
    ensures var story' := NextStory(story, d, e);
      && story'.Story? && Attempts(story'.begun) && user == UserOf(story'.begun)
      && path == (if story'.found.Some? then "" else SessionOf(story'.begun).exec)
      && autologin == OwnerOf(story'.begun).None? && fingerprint == story'.begun.FingerprintLogin?
  {
    BeganIs(d, e);
    hide News, Step, Began, WellFormed;
  }

  /** What a helper is started with, for every run: the user of the request or automatic login that began
      the attempt, its command unless a session has been found to reuse, and whether a finger is read. */
  lemma HelperIsForTheAttempt(rootful: bool, events: seq<Event>, e: Event, user: string, path: string,
                              autologin: bool, fingerprint: bool)
    requires Feasible(Initial(rootful), events) && WellFormed(Run(Initial(rootful), events))
    requires Enabled(Run(Initial(rootful), events), e)
    requires HelperStarted(user, path, autologin, fingerprint) in News(Run(Initial(rootful), events), e)
    ensures var story := NextStory(StoryOf(rootful, events), Run(Initial(rootful), events), e);
      && story.Story? && Attempts(story.begun) && user == UserOf(story.begun)
      && path == (if story.found.Some? then "" else SessionOf(story.begun).exec)
      && autologin == OwnerOf(story.begun).None? && fingerprint == story.begun.FingerprintLogin?
  {
    hide News, Step, StoryFits, WellFormed, StoryOf, NextStory, StartsHelper, Run, Enabled;
    RunFits(rootful, events);
    var (d, story) := (Run(Initial(rootful), events), StoryOf(rootful, events));
    StartedBy(d, e, user, path, autologin, fingerprint);
    HelperFits(d, e, story, user, path, autologin, fingerprint);
  }

  /** A greeter that animates is told to keep the background exactly if a new X11 session comes up on a
      rootful server. */
  lemma BackgroundIsKept(rootful: bool, events: seq<Event>, e: Event, r: Request, preserve: bool)
    requires Feasible(Initial(rootful), events) && WellFormed(Run(Initial(rootful), events))
    requires Enabled(Run(Initial(rootful), events), e)
    requires PrepareTransition(r, preserve) in News(Run(Initial(rootful), events), e)
    ensures var story := StoryOf(rootful, events);
      && story.Story? && Attempts(story.begun) && OwnerOf(story.begun) == Some(r)
      && preserve == (SessionOf(story.begun).x11 && rootful && story.found.None?)
  {
    RunFits(rootful, events);
    var d := Run(Initial(rootful), events);
    NewsAre(d, e);
    hide News, Step, WellFormed;
    assert Cause(d, e, PrepareTransition(r, preserve));
  }

  /** While a search collects replies: the helper is started for a session to reuse exactly when a reply
      has the right fields, and of the type of the session that the attempt was begun for. */
  lemma RightReplyIsReused(rootful: bool, events: seq<Event>, entry: SessionEntry, p: Properties)
    requires Feasible(Initial(rootful), events)
    requires Enabled(Run(Initial(rootful), events), PropertiesRead(entry, Some(p)))
    ensures var (d, story) := (Run(Initial(rootful), events), StoryOf(rootful, events));
      && WellFormed(d) && story.Story? && Attempts(story.begun) && entry.userName == UserOf(story.begun)
      && (Step(d, PropertiesRead(entry, Some(p))).phase == Proving(OwnerOf(story.begun), Some(entry.id)) <==>
          && (p.service == "gxdm" || p.service == "gxdm-autologin") && p.state == "online"
          && p.sessionClass == "user" && p.sessionType == SessionOf(story.begun).xdgType)
  {
    RunFits(rootful, events);
  }

  /** Event `j` began what the story tells of, and event `i` found the session for it; an index of -1
      means that this was so before. */
  ghost predicate FoundAt(events: seq<Event>, story: Story, end: Story, j: int, i: int) {
    && -1 <= j <= i < |events| && end.Story? && Attempts(end.begun)
    && (if j >= 0 then events[j] == end.begun else story.Story? && story.begun == end.begun)
    && (if i < 0 then story.Story? && story.found == end.found
        else
          && j < i && events[i].PropertiesRead? && end.found == Some(events[i].entry.id)
          && events[i].properties.Some? && Fits(events[i].properties.value, SessionOf(end.begun).xdgType))
  }

  lemma FoundLater(d: Daemon, events: seq<Event>, story: Story, end: Story, j: int, i: int) returns (j': int, i': int)
    requires events != [] && WellFormed(d) && Enabled(d, events[0]) && end.Story? && end.found.Some?
    requires story.Story? ==> Attempts(story.begun)
    requires FoundAt(events[1..], NextStory(story, d, events[0]), end, j, i)
    ensures FoundAt(events, story, end, j', i')
  {
    hide WellFormed, Enabled, Began, Fits;
    var e := events[0];
    if j >= 0 {
      j', i' := j + 1, i + 1;
    } else {
      j' := if Began(d, e) then 0 else -1;
      i' := if i >= 0 then i + 1
            else if story.Story? && !Began(d, e) && story.found == end.found then -1 else 0;
    }
  }

  /** What the story tells of a begun attempt and a session found for it is in the history. */
  lemma {:induction false} FoundIsRead(d: Daemon, events: seq<Event>, story: Story) returns (j: int, i: int)
    requires Feasible(d, events) && StoryFits(d, story)
    requires Tale(d, events, story).Story? && Tale(d, events, story).found.Some?
    ensures FoundAt(events, story, Tale(d, events, story), j, i)
    decreases |events|
  {
    hide Step, StoryFits, WellFormed, Enabled, NextStory;
    if events == [] {
      FitsBegun(d, story);
      hide FoundAt;
      j, i := -1, -1;
    } else {
      StepFits(d, events[0], story);
      FitsBegun(d, story);
      hide FoundAt;
      j, i := FoundIsRead(Step(d, events[0]), events[1..], NextStory(story, d, events[0]));
      j, i := FoundLater(d, events, story, Tale(d, events, story), j, i);
    }
  }

  lemma FitsBegun(d: Daemon, story: Story)
    requires StoryFits(d, story)
    ensures story.Story? ==> Attempts(story.begun)
    ensures story.Story? ==> FoundAt([], story, story, -1, -1)
  {
  }

  lemma UnlockedBy(d: Daemon, e: Event, sid: string)
    requires WellFormed(d) && Enabled(d, e) && UnlockSession(sid) in News(d, e)
    ensures (d.phase.Proving? || d.phase.Held?) && d.phase.reuse == Some(sid)
  {
    NewsAre(d, e);
    hide News, Step, WellFormed, GoesOn;
    assert Cause(d, e, UnlockSession(sid));
  }

  lemma UnlockedIsFound(d: Daemon, e: Event, story: Story, sid: string)
    requires WellFormed(d) && Enabled(d, e) && StoryFits(d, story) && UnlockSession(sid) in News(d, e)
    ensures story.Story? && story.found == Some(sid)
  {
    UnlockedBy(d, e, sid);
    hide News, Step, WellFormed, Enabled;
  }

  /** A session that is unlocked has been read with the right fields, since the attempt began. */
  lemma ReusedWasRead(rootful: bool, events: seq<Event>, e: Event, sid: string) returns (j: int, i: int)
    requires Feasible(Initial(rootful), events) && WellFormed(Run(Initial(rootful), events))
    requires Enabled(Run(Initial(rootful), events), e)
    requires UnlockSession(sid) in News(Run(Initial(rootful), events), e)
    ensures StoryOf(rootful, events).Story?
    ensures var begun := StoryOf(rootful, events).begun;
      && 0 <= j < i < |events| && events[j] == begun && Attempts(begun)
      && events[i].PropertiesRead? && events[i].entry.id == sid && events[i].properties.Some?
      && Fits(events[i].properties.value, SessionOf(begun).xdgType)
  {
    assert StoryFits(Initial(rootful), NoStory);
    RunFits(rootful, events);
    hide News, Step, WellFormed, Run, Enabled, Feasible, Tale;
    UnlockedIsFound(Run(Initial(rootful), events), e, StoryOf(rootful, events), sid);
    j, i := FoundIsRead(Initial(rootful), events, NoStory);
  }

  // ---------- requests and connections in the history ----------

  lemma {:induction false} LaterIds(d: Daemon, events: seq<Event>, i: nat)
    requires Feasible(d, events) && i < |events| && IsRequest(events[i])
    ensures events[i].request.id >= d.issued
    ensures i > 0 && IsRequest(events[0]) ==> events[i].request.id > events[0].request.id == d.issued
    decreases |events|
  {
    hide Step, WellFormed;
    if i > 0 {
      StepIsAlike(d, events[0]);
      LaterIds(Step(d, events[0]), events[1..], i - 1);
    }
  }

  /** No two requests of a history are the same. */
  lemma {:induction false} OneOfAKind(d: Daemon, events: seq<Event>, i: nat, j: nat)
    requires Feasible(d, events) && i < |events| && j < |events| && IsRequest(events[i]) && IsRequest(events[j])
    requires events[i].request == events[j].request
    ensures i == j
    decreases |events|
  {
    hide Step, WellFormed;
    if i == 0 || j == 0 {
      LaterIds(d, events, i);
      LaterIds(d, events, j);
    } else {
      OneOfAKind(Step(d, events[0]), events[1..], i - 1, j - 1);
    }
  }

  lemma {:induction false} BegunIsInHistory(d: Daemon, events: seq<Event>, story: Story) returns (j: int)
    requires Feasible(d, events) && Tale(d, events, story).Story?
    ensures -1 <= j < |events|
    ensures var end := Tale(d, events, story);
      if j >= 0 then events[j] == end.begun else story.Story? && story.begun == end.begun
    decreases |events|
  {
    if events == [] {
      j := -1;
    } else {
      hide Step, WellFormed, Began;
      j := BegunIsInHistory(Step(d, events[0]), events[1..], NextStory(story, d, events[0]));
      j := if j >= 0 then j + 1 else if Began(d, events[0]) then 0 else -1;
    }
  }

  /** As long as a request waits for its result, the attempt under way is the one it began. */
  lemma RequestBegan(rootful: bool, events: seq<Event>, i: nat)
    requires Feasible(Initial(rootful), events) && i < |events| && IsRequest(events[i])
    requires Owner(Run(Initial(rootful), events).phase) == Some(events[i].request)
    ensures StoryOf(rootful, events).Story? && StoryOf(rootful, events).begun == events[i]
  {
    RunFits(rootful, events);
    var j := BegunIsInHistory(Initial(rootful), events, NoStory);
    OneOfAKind(Initial(rootful), events, i, j);
  }

  lemma {:induction false} AnnouncedFrom(d: Daemon, events: seq<Event>, socket: nat)
    requires Feasible(d, events)
    ensures socket in Run(d, events).transitions <==> socket in d.transitions || EnableTransitions(socket) in events
    decreases |events|
  {
    if events != [] {
      hide Step, WellFormed;
      StepIsAlike(d, events[0]);
      AnnouncedFrom(Step(d, events[0]), events[1..], socket);
      assert events == [events[0]] + events[1..];
    }
  }

  /** A connection is waited for exactly if it has announced that it animates. */
  lemma Announced(rootful: bool, events: seq<Event>, socket: nat)
    requires Feasible(Initial(rootful), events)
    ensures socket in Run(Initial(rootful), events).transitions <==> EnableTransitions(socket) in events
  {
    AnnouncedFrom(Initial(rootful), events, socket);
  }
}