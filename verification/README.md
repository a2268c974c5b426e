# Verified models of the display manager's login, configuration and fingerprint logic

The project models, in Dafny 4.11, the parts of the display manager that are hardest to get right,
and proves what they are relied on for.

* **Login protocol.** `Display.dfy` holds the display, its Auth object and the reentrant request
  object as classes whose slots change flags, generation counters and timers step by step; signals
  are direct calls to the object connected to them, so a stop re-enters the display through the exit
  of its own helper. Related fields are grouped in records (`reuse` has the `m_reuse*` fields,
  `Auth.state` those of Auth's private part). `DisplaySpec.dfy` says what the flags are for: a
  machine with seven phases. `DisplayFlags.dfy` couples the two, and every slot is proved to take
  exactly the step of the machine that its event names, a reply to an abandoned call none.
  `DisplaySafety.dfy` proves what holds over all runs of the machine (one result for each request,
  results that never contradict PAM, a helper that is released only when it may go on). `DisplayCauses.dfy`
  says of each output exactly when it is said, and `DisplayStory.dfy` what follows from the history of
  events alone: with what prompts are answered, what a helper is started for, which session is reused.
  `DisplayProgress.dfy` proves that no wakeup is lost, how the search for a session to reuse
  ends, and how a display ends. `DisplayRun.dfy` drives the classes with arbitrary stimuli, stale
  replies and timers included.
* **Handshake.** `Handshake.dfy` puts the helper, which blocks on its socket, beside the daemon and
  proves that both always agree on whose turn it is.
* **Configuration files.** `ConfigReader` has the configuration, which loads a file and rewrites it;
  `ConfigText`, `ConfigScan`, `ConfigValue` and `ConfigEntries` say what its reader finds, `ConfigDraft`
  how the new file is put together, `PlaceMarkers` and `ConfigLines` how the templates of its lines are
  filled in, place markers inside the arguments included, and `ConfigSaved` exactly what survives.
  `GreeterSettings` is the second, independent writer of such files, with its exact effect on any file
  as the same reader sees it.
* **Wire.** `Wire.dfy` has the message encodings, and frames over a socket that takes and gives as
  little at a time as it likes.
* **Fingerprint session.** `FingerprintSession.dfy` has the listening session and its runs.
* **Media players.** `MediaController.dfy` has the lock screen's index of players.

Requests carry a number that the program does not have, so that two of them can be told apart;
`log`, `issued`, `search` and `ended` are history for the same reason.

Found on the way, and modelled as the code has it:

* A user session that exits with status 1 is taken for a failed authentication (`src/helper/HelperApp.cpp:203-205`,
  `src/daemon/Display.cpp:1078-1084`), so the display is not stopped and keeps running without its
  greeter: `DisplayProgress.SessionEndStopsUnless`, `DisplayProgress.SessionEndWithoutGreeter`.
* A helper that asks three or more things at once, or asks anything after a finger was accepted, never
  gets an answer and waits until it is killed: `Handshake.ThreeQuestionsAreNotAnswered`,
  `Handshake.UnansweredForGood`.
* Lines are rewritten by chained substitutions, each of which also fills in the place markers that came
  with an earlier argument (`src/common/ConfigReader.cpp:305-314`). A value that is rewritten comes back
  if and only if no marker in it has one of the numbers 0 to 3 (`%20` is safe, `%1f` comes back as
  `f %3`): `ConfigLines.ValueRewritten`, `ConfigLines.MarkerIsLost`, and for whole files
  `ConfigSaved.ValuesComeBack` and `ConfigSaved.SavedIsFaithful`. An unknown assignment survives if and
  only if no marker in it has one of the numbers 0 to 2: `ConfigSaved.StraysAreKept`; it may even become
  a header: `ConfigSaved.BecomesHeader`.
* The setting writer and the reader take headers apart differently. A saved setting is found under
  General if and only if the line that decides for the reader is one the writer sets, or the new line is
  inserted where the reader is in General with nothing behind it that decides, or the value was there
  already: `GreeterSettings.SavedIff`, `GreeterSettings.NewKeySavedIff`. It is lost behind `[ General]`
  (`GreeterSettings.PaddedHeaderMisleads`) and behind `[]` (`GreeterSettings.EmptyHeaderMisleads`), and
  before `[a=b]` with an old assignment after it (`GreeterSettings.EqualsInHeaderMisleads`).

## Model

| member | source | states |
|---|---|---|
| DisplayDaemon.AuthRequest.SetRequest | src/auth/AuthRequest.cpp:53-69 | one REQUEST gets at most one reply however the signals nest; none while a fingerprint login runs |
| DisplayDaemon.AuthRequest.Done | src/auth/AuthRequest.cpp:79-84 | sends the answers once; a second call does nothing |
| DisplayDaemon.Auth.RequestFinished | src/auth/Auth.cpp:252-258 | the reply carries the answered prompts and the nested reset answers nothing |
| DisplayDaemon.Auth.ResumeSessionStart | src/auth/Auth.cpp:402-417 | releases a helper that waits, once, and only if its socket is connected |
| DisplayDaemon.Auth.Start | src/auth/Auth.cpp:419-439 | starts a helper only when none runs, with nothing deferred from an earlier one |
| DisplayDaemon.Auth.Stop | src/auth/Auth.cpp:441-457 | leaves no helper; its exit, handled inside, changes nothing else of a display that is ending |
| DisplayDaemon.Auth.ChildExited | src/auth/Auth.cpp:225-245 | on the way down only the helper goes; otherwise it is the protocol's step for a dead helper |
| DisplayDaemon.Auth.DataPending | src/auth/Auth.cpp:155-223 | any queue of messages takes the display through the corresponding run |
| DisplayDaemon.Auth.HandleMessage | src/auth/Auth.cpp:162-221 | each message is the protocol's step for it |
| DisplayDaemon.Auth.HandleAuthenticated | src/auth/Auth.cpp:183-199 | acceptance is held back or released exactly as the protocol says; refusal settles or falls back to the greeter |
| DisplayDaemon.Display.RemoveDisplayManagerSession | src/daemon/Display.cpp:1177-1184 | no session of this display stays registered |
| DisplayDaemon.Display.RemoveSession | src/daemon/DisplayManager.cpp:441-458 | all sessions of the name go, each announced |
| DisplayDaemon.Display.FinishLogin | src/daemon/Display.cpp:1000-1029 | the outstanding request gets its one result and is let go of |
| DisplayDaemon.Display.Stop | src/daemon/Display.cpp:527-567 | the reentrant stop is the one atomic stop of the protocol; a nested call does nothing |
| DisplayDaemon.Display.SlotHelperFinished | src/daemon/Display.cpp:1057-1085 | the display mourns a helper as the protocol says, whatever it was doing |
| DisplayDaemon.Display.CancelFingerprintLogin | src/daemon/Display.cpp:635-648 | search and helper are gone, the request is let go of without a result, the display runs on |
| DisplayDaemon.Display.SlotRequestChanged | src/daemon/Display.cpp:1087-1113 | takes the protocol's step for a question, whose answers `DisplayStory.PromptsAreAnswered` states field by field |
| DisplayDaemon.Display.PromptCancelFires | src/daemon/Display.cpp:1095-1102 | a deferred cancel that comes too late changes nothing |
| DisplayDaemon.Display.StartAuth | src/daemon/Display.cpp:669-754 | succeeds exactly for a usable session without a running helper, and forgets every earlier attempt |
| DisplayDaemon.Display.FindReusableSession | src/daemon/Display.cpp:756-778 | the search has a timer and one call of its own generation |
| DisplayDaemon.Display.StartDisplay | src/daemon/Display.cpp:394-420 | step for starting, with the early automatic login |
| DisplayDaemon.Display.AttemptAutologin | src/daemon/Display.cpp:422-446 | under way exactly if a usable session was found |
| DisplayDaemon.Display.HandleAutologinFailure | src/daemon/Display.cpp:476-493 | falls back to a greeter by the way the display server allows |
| DisplayDaemon.Display.ServerReady | src/daemon/Display.cpp:495-525 | step for a display server that is up |
| DisplayDaemon.Display.AnnounceTransitions | src/daemon/SocketServer.cpp:172-174 | later acceptances of this connection are held for its greeter |
| DisplayDaemon.Display.Login | src/daemon/Display.cpp:569-598 | step for a password request: takes over from a listening finger, is rejected while busy, or begins |
| DisplayDaemon.Display.FingerprintLogin | src/daemon/Display.cpp:608-627 | step for a fingerprint request, answered at once if it cannot begin |
| DisplayDaemon.Display.FingerprintCancel | src/daemon/Display.cpp:629-633 | only the connection that asked, and only before PAM accepted, cancels |
| DisplayDaemon.Display.FinishReusableSessionLookup | src/daemon/Display.cpp:852-866 | ends only the pending search of that generation, by starting the helper |
| DisplayDaemon.Display.LookupTimedOut | src/daemon/Display.cpp:763-769 | a timer of an abandoned search changes nothing |
| DisplayDaemon.Display.SessionsListReplied | src/daemon/Display.cpp:776-803 | the session list of an abandoned search changes nothing; otherwise it is the protocol's step |
| DisplayDaemon.Display.FilterByUser | src/daemon/Display.cpp:793-797 | the candidates are the user's sessions in order |
| DisplayDaemon.Display.QueryProperties | src/daemon/Display.cpp:805-848 | each candidate is asked about exactly once |
| DisplayDaemon.Display.PropertiesReplied | src/daemon/Display.cpp:818-847 | the countdown of replies agrees with the set of entries still waited for; which reply ends the search is `DisplayStory.RightReplyIsReused` |
| DisplayDaemon.Display.SlotAuthenticationFinished | src/daemon/Display.cpp:868-897 | the state a release or a transition is decided on |
| DisplayDaemon.Display.BeginTransition | src/daemon/Display.cpp:899-914 | a transition begins exactly for connections that announced one, with its timer armed |
| DisplayDaemon.Display.SlotSessionStarted | src/daemon/Display.cpp:1115-1126 | result, registry and greeter after the session status, as the protocol's step; the result is `DisplayCauses.ResultIsTold` |
| DisplayDaemon.Display.CompleteTransition | src/daemon/Display.cpp:916-928 | the held helper is released, a reused session activated |
| DisplayDaemon.Display.TransitionReady | src/daemon/Display.cpp:339-343 | only the waiting connection completes its transition |
| DisplayDaemon.Display.TransitionTimedOut | src/daemon/Display.cpp:335-338 | the timer completes it as well |
| DisplayDaemon.Display.ActivateReusableSession | src/daemon/Display.cpp:930-941 | a new generation with a timer and one call |
| DisplayDaemon.Display.UnlockReplied | src/daemon/Display.cpp:941-966 | a reply for another generation or session changes nothing |
| DisplayDaemon.Display.SwitchReplied | src/daemon/Display.cpp:962-976 | likewise for the second call, whose result is `DisplayCauses.ResultIsTold` |
| DisplayDaemon.Display.ActivationTimedOut | src/daemon/Display.cpp:980-998 | fails the pending activation |
| DisplayDaemon.Display.FinishReusableSessionActivation | src/daemon/Display.cpp:980-998 | settles the request, and stops the display if the helper has gone meanwhile |
| DisplayFlags.Determined | src/daemon/Display.cpp:569-1126 | flags that fit a phase stand for no other |
| DisplayFlags.StopRefines | src/daemon/Display.cpp:527-567 | the steps of a stop together are the protocol's stop |
| DisplayFlags.RemarkRefines | src/daemon/Display.cpp:1031-1055 | what the helper says is told to whom the protocol says: information and errors to the owner of a password login, a rejected finger to that of a fingerprint login |
| DisplayFlags.DropCall | src/daemon/Display.cpp:782-785 | replies nobody waits for leave invariant and meaning of the flags as they are |
| DisplayFlags.PropertyCallIsWaitedFor | src/daemon/Display.cpp:803-847 | the shared counter is the number of entries still waited for |
| DisplayRun.Deliver | src/daemon/Display.cpp:569-1126 | whatever is delivered is one step of the protocol, or none if it is stale |
| DisplayRun.Operate | src/daemon/Display.cpp:569-1126 | under any stimuli in any order the objects behave as a run of the protocol; each request has one result or is being worked on |
| DisplaySafety.StepKeepsSound | src/daemon/Display.cpp:569-1126 | every event keeps the books balanced and the watchman quiet |
| DisplaySafety.ExactlyOneResult | src/daemon/Display.cpp:569-648 | over every run a request has exactly one result or is the outstanding one |
| DisplaySafety.ResultsAreJustified | src/daemon/Display.cpp:1000-1029 | success only after PAM accepted that request; no finger that was accepted ends as unmatched; helper, registry and end obey the watchman |
| DisplaySafety.HelperReleasedOnlyWhenCleared | src/auth/Auth.cpp:183-198 | the AUTHENTICATED reply comes at most once per helper, after its PAM accepted, and never during a transition |
| DisplayCauses.EveryOutputHasItsCause | src/daemon/Display.cpp:569-1126 | for each of the outputs a condition on display and event: it is said if and only if the condition holds |
| DisplayCauses.ResultIsTold | src/daemon/Display.cpp:980-1029 | a waiting request succeeds exactly when the session has been opened or the switch made; it comes to nothing exactly by a refusal, a failed session or activation, a timeout, the helper's exit, a stop, or a finger called off |
| DisplayCauses.AnswersAre | src/daemon/Display.cpp:1104-1112 | the answers, field by field: as asked, the pass phrase in the last, the name in the first of two |
| DisplayCauses.OneHelperPerAttempt | src/daemon/Display.cpp:669-866 | over any part of a run no more helpers are started than attempts begin, but for the one that a search under way has yet to start |
| DisplayStory.PromptsAreAnswered | src/daemon/Display.cpp:1087-1113 | over every run: one prompt gets the pass phrase of the event that began the attempt, two the user's name and that pass phrase; other numbers, and a fingerprint login's questions, get nothing |
| DisplayStory.PasswordIsSent | src/daemon/Display.cpp:1104-1112 | while a password request waits, what is answered is the pass phrase that came with it, and its user's name until PAM reports another |
| DisplayStory.RequestBegan | src/daemon/Display.cpp:669-754 | while a request waits, the attempt under way is the one it began |
| DisplayStory.HelperIsForTheAttempt | src/daemon/Display.cpp:669-866 | a helper is started with the user, the command and the kind of the event that began the attempt, without a command for a session to reuse |
| DisplayStory.RightReplyIsReused | src/daemon/SessionReuse.h:27-37 | a reply ends the search with a session to reuse if and only if its service, state, class and type are right, the type being that of the session asked for |
| DisplayStory.ReusedWasRead | src/daemon/Display.cpp:818-841 | a session that is unlocked had such a reply since the attempt began |
| DisplayStory.BackgroundIsKept | src/daemon/Display.cpp:899-906 | the background is kept exactly for a new X11 session on a rootful server |
| DisplayStory.Announced | src/daemon/SocketServer.cpp:172-174 | exactly the connections that announced it are waited for |
| DisplayStory.CancelIsScheduled | src/daemon/Display.cpp:1091-1102 | a question in a fingerprint login schedules a cancel, and nothing else does |
| DisplayProgress.WakeupIsArmed | src/daemon/Display.cpp:756-769 | an outstanding request has a current timer or a live helper; a held helper has the transition timer; a search excludes helper and activation |
| DisplayProgress.NeverFurtherAway | src/daemon/Display.cpp:899-934 | no event takes a request further from its result, each wakeup brings it nearer |
| DisplayProgress.SettledInTime | src/daemon/Display.cpp:980-1001 | after at most five wakeups a request has its one result |
| DisplayProgress.FanOut | src/daemon/Display.cpp:793-850 | for any number of candidates and any order of replies the first usable one ends the search, else the last reply does |
| DisplayProgress.CandidatesAreTheUsers | src/daemon/Display.cpp:793-797 | the candidates are exactly the entries of the user |
| DisplayProgress.ReusedSessionIsTheUsers | src/daemon/SessionReuse.h:27-37 | a session that is reused is on the list, belongs to the user, and a reply had the right service, state, class and type |
| DisplayProgress.StopIsFinal | src/daemon/Display.cpp:527-567 | stopping says so once and last, fails the outstanding request, and is done the second time |
| DisplayProgress.RestIsClean | src/daemon/Display.cpp:534-549 | a display at rest has nothing outstanding, pending or armed |
| DisplayProgress.CancellingNeverStops | src/daemon/Display.cpp:1060-1063 | calling off a fingerprint login never stops the display |
| DisplayProgress.NothingAfterTheEnd | src/daemon/Display.cpp:561-566 | a stopped display is silent ever after |
| DisplayProgress.SessionEndStopsUnless | src/daemon/Display.cpp:1078-1084 | the end of the user's session stops the display if and only if its status is not 1 |
| DisplayProgress.SessionEndWithoutGreeter | src/helper/HelperApp.cpp:203-205 | a concrete run that ends so |
| Handshake.DaemonCanCope | src/helper/HelperApp.cpp:137-201 | the helper never sends what the daemon is not ready for |
| Handshake.RightReply | src/helper/HelperApp.cpp:221-264 | at most one reply is under way and it has the opcode the helper waits for |
| Handshake.HeldHelperWaits | src/auth/Auth.cpp:398-417 | while the greeter animates the helper waits and opens nothing |
| Handshake.QuestionRead | src/daemon/Display.cpp:1087-1113 | a question is answered exactly if the helper reads no finger and asks one or two things |
| Handshake.MoveKeeps | src/auth/Auth.cpp:155-223 | every move of either program keeps both in tune |
| Handshake.HandshakeHolds | src/helper/HelperApp.cpp:137-264 | all of this in every reachable state of both programs; the daemon's share is a run of the protocol |
| Handshake.AcceptedByPam | src/helper/HelperApp.cpp:174-187 | the daemon takes a login for accepted only when the helper started for it had PAM accept |
| Handshake.UnansweredForGood | src/helper/HelperApp.cpp:221-234 | an unanswered question stays so until that helper is gone |
| Handshake.ThreeQuestionsAreNotAnswered | src/daemon/Display.cpp:1105-1112 | a question stays unanswered if and only if it is the fingerprint helper's, empty, or has three parts or more |
| Handshake.RefusalKeepsDisplay | src/helper/HelperApp.cpp:142-172 | after PAM has refused, the helper leaves with the one code that keeps display and greeter |
| Handshake.FailureIsRead | src/helper/HelperApp.cpp:181-185 | a session that could not be opened is told, read and receipted |
| Handshake.FailedSessionStopsDisplay | src/helper/HelperApp.cpp:181-185 | the helper then leaves with another code, which stops the display |
| Handshake.ReuseHelperLeaves | src/helper/HelperApp.cpp:198-199 | a helper without a session to open leaves with success once it is released |
| ConfigText.AssignmentReads | src/common/ConfigReader.cpp:200-215 | any line with an equals sign before its comment: name and value are what stands around the first, trimmed |
| ConfigText.HeaderReads | src/common/ConfigReader.cpp:200-226 | any other line whose text is bracketed is a header with exactly that name |
| ConfigText.RemarkReads | src/common/ConfigReader.cpp:200-226 | all other lines say nothing |
| ConfigText.TrimSplits | src/common/ConfigReader.cpp:200-202 | trimming cuts the spaces off both ends, and all of them |
| ConfigText.TrimFirst | src/common/ConfigReader.cpp:200-202 | reader and writers cut comments alike although they trim at different times |
| PlaceMarkers.MarkerForms | src/common/ConfigReader.cpp:305-314 | what counts as a marker: one or two digits, with an `L` or without |
| PlaceMarkers.ReplaceOfSum | src/common/ConfigReader.cpp:305-314 | filling in a text put together from two is filling in both |
| PlaceMarkers.FirstReplaced | src/common/ConfigReader.cpp:305-314 | where the argument goes first: in place of a marker with the lowest number |
| ConfigLines.RewrittenIs | src/common/ConfigReader.cpp:305-305 | the rewritten line for any value and comment: the comment goes to the lowest markers, be they the value's or its own |
| ConfigLines.MarkedIs | src/common/ConfigReader.cpp:314-314 | likewise the line of an unknown variable |
| ConfigLines.ValueRewritten | src/common/ConfigReader.cpp:305-305 | a rewritten value is read back if and only if no marker in it has one of the numbers 0 to 3 |
| ConfigLines.MarkerIsLost | src/common/ConfigReader.cpp:305-305 | values of the form `%1f` come back as `f %3` |
| ConfigLines.MarkedReads | src/common/ConfigReader.cpp:314-314 | an unknown assignment keeps its meaning if no marker in it has one of the numbers 0 to 2; otherwise at best a part of its value is left |
| ConfigScan.HeaderCounts | src/common/ConfigReader.cpp:204-226 | an assignment belongs to the header before it, those of renamed sections to the new names |
| ConfigScan.ScanSum | src/common/ConfigReader.cpp:191-227 | what is found in two texts put together |
| ConfigScan.TrimmedPartScans | src/common/ConfigReader.cpp:360-361 | the unused part may be trimmed without changing what is found in it |
| ConfigValue.FlagReads | src/common/ConfigReader.cpp:53-57 | of any text, exactly the four letters of `true` in either case, spaces around them or not, are a flag that is on |
| ConfigValue.ItemsRead | src/common/ConfigReader.cpp:33-46 | of any text, the items are the pieces between commas that are not blank, trimmed, in order |
| ConfigValue.NumberReads | src/common/ConfigReader.h:159-163 | a row of digits, with a sign or without, reads as the decimal it stands for, whatever follows it |
| ConfigValue.PrintedIs | src/common/ConfigReader.cpp:48-64 | what is written: flags in small letters, bare commas between items, decimals without leading zeros |
| ConfigValue.PrintedReadsBack | src/common/ConfigReader.cpp:33-69 | a printed value is plain text and is read back as it was |
| ConfigDraft.WriteMore | src/common/ConfigReader.cpp:271-280 | writing adds exactly the assignments of the text behind those of its section, wherever the section's part stands |
| ConfigDraft.WriteHeader | src/common/ConfigReader.cpp:318-326 | a section's first header makes its part stand by itself |
| ConfigDraft.RenderedScans | src/common/ConfigReader.cpp:352-363 | a reader finds in the finished file exactly what has been written, section by section in the same order |
| ConfigDraft.SameLookup | src/common/ConfigReader.cpp:216-220 | such a regrouping changes nothing of what is looked up |
| ConfigReader.ConfigBase.LoadInternal | src/common/ConfigReader.cpp:191-227 | every entry gets the last value found for it; unknown variables are noticed |
| ConfigReader.ConfigBase.Wipe | src/common/ConfigReader.cpp:366-370 | every entry has its default |
| ConfigReader.ConfigBase.Save | src/common/ConfigReader.cpp:229-364 | each assignment is replaced as the templates say, missing entries are added once each, the order within every section is kept, and so are remarks that something follows; a file that says it all already is left alone; unknown names are noticed |
| ConfigReader.DraftHasTexts | src/common/ConfigReader.cpp:271-338 | replaced assignments, first headers, headers of unknown sections, and every remark that something follows stand in the new file |
| ConfigReader.ConfigBase.CopyLine | src/common/ConfigReader.cpp:286-338 | one line keeps the draft, the changed flag and the remaining entries in step with a reader |
| ConfigReader.ConfigBase.AddRemaining | src/common/ConfigReader.cpp:342-349 | the missing entries are added once each, in any order |
| ConfigReader.ConfigBase.SaveAndReload | src/common/ConfigReader.cpp:229-370 | save, wipe and load: an entry has its value back if and only if the assignment that decides was right, can be rewritten, or was missing; unknown assignments are kept, and the file is faithful, under their exact conditions |
| ConfigReader.ConfigBase.SaveTwice | src/common/ConfigReader.cpp:352-363 | if all that is rewritten survives, a second save finds nothing to do |
| ConfigSaved.BecomesHeader | src/common/ConfigReader.cpp:314-314 | an unknown assignment such as `[a]%1=b` is turned into a header |
| ConfigSaved.ValuesComeBack | src/common/ConfigReader.cpp:191-227 | the round trip for one entry, as an if-and-only-if |
| ConfigSaved.SavedIsFaithful | src/common/ConfigReader.cpp:300-308 | the written file says of every entry what the configuration says if and only if all that was rewritten survives |
| ConfigSaved.FaithfulComesBack | src/common/ConfigReader.cpp:191-227 | a wiped configuration is restored from any faithful file |
| ConfigSaved.StraysAreKept | src/common/ConfigReader.cpp:311-315 | unknown assignments are neither lost nor invented if and only if none has a marker with one of the numbers 0 to 2 |
| ConfigEntries.ApplyIs | src/common/ConfigReader.cpp:216-220 | after reading, an entry has the value found last, or its old one |
| ConfigEntries.DescribedIs | src/common/ConfigReader.h:170-174 | every line of a description becomes a comment line over the entry |
| ConfigEntries.FullEntryScans | src/common/ConfigReader.h:170-176 | an added entry with its description is read as that one assignment |
| GreeterSettings.SaveGeneralSetting | src/daemon/greeter_settings.cc:103-175 | the loop with its insertion index computes the file with the setting |
| GreeterSettings.EditLines | src/daemon/greeter_settings.cc:122-152 | all assignments to the key are rewritten; the index found is behind the General section |
| GreeterSettings.SettingLineReads | src/daemon/greeter_settings.cc:57-66 | the line is read as the setting, keeps its comment, and is not changed by writing it again |
| GreeterSettings.InGeneralIs | src/daemon/greeter_settings.cc:129-144 | the writer is in General unless another section's header stands before without one of General after it |
| GreeterSettings.GeneralAgrees | src/daemon/greeter_settings.cc:129-144 | writer and reader agree on where the General section is |
| GreeterSettings.HasAgrees | src/daemon/greeter_settings.cc:146-148 | the writer finds an assignment exactly if the reader does |
| GreeterSettings.EndIsInGeneral | src/daemon/greeter_settings.cc:154-166 | the place of insertion is the last one in General |
| GreeterSettings.OtherLinesStay | src/daemon/greeter_settings.cc:146-148 | when the key is there, every line that does not set it stays as it is and where it is |
| GreeterSettings.EffectIsExact | src/daemon/greeter_settings.cc:117-172 | what the reader finds for any setting after saving, on any file |
| GreeterSettings.SavedIff | src/daemon/greeter_settings.cc:117-172 | General/key reads as the value if and only if the save reaches the line that decides, or the value was there already |
| GreeterSettings.NewKeySavedIff | src/daemon/greeter_settings.cc:154-166 | for a key that neither finds: if and only if the reader is in General at the place of insertion |
| GreeterSettings.UpdatedIff | src/daemon/greeter_settings.cc:117-172 | exactly when the save sets the key and changes no other setting |
| GreeterSettings.SettingIsSaved | src/daemon/greeter_settings.cc:103-175 | on files whose headers both understand alike, General/key reads as the value afterwards and every other setting as before |
| GreeterSettings.SavingTwice | src/daemon/greeter_settings.cc:117-172 | saving the same setting again changes no line, on any file |
| GreeterSettings.SavingCommutes | src/daemon/greeter_settings.cc:117-172 | two settings saved in either order read alike |
| GreeterSettings.SavedFileReads | src/daemon/greeter_settings.cc:117-172 | the exact effect for whole files, text for text |
| GreeterSettings.PaddedHeaderMisleads | src/daemon/greeter_settings.cc:41-48 | a setting saved under a padded header is not found |
| GreeterSettings.EmptyHeaderMisleads | src/daemon/greeter_settings.cc:41-48 | nor one saved under an empty header |
| GreeterSettings.EqualsInHeaderMisleads | src/daemon/greeter_settings.cc:41-48 | with an equals sign in a header the old value wins |
| Wire.BigEndian | src/auth/AuthMessages.h:170-186 | numbers go out with the most significant byte first |
| Wire.FrameIs | src/common/SafeDataStream.cpp:31-50 | a frame is eight bytes of length, the least significant first, and the data |
| Wire.OnePacket | src/auth/AuthMessages.h:170-212 | the very bytes of a request with one prompt |
| Wire.PromptReadsBack | src/auth/AuthMessages.h:170-186 | a prompt is read as written, and what follows is untouched |
| Wire.RequestReadsBack | src/auth/AuthMessages.h:188-212 | likewise any list of prompts |
| Wire.VariableReadsBack | src/auth/AuthMessages.h:160-168 | a variable survives if and only if its name has no equals sign |
| Wire.EnvironmentReadsBack | src/auth/AuthMessages.h:155-168 | an environment arrives whole in whatever order it is written |
| Wire.MapHas | src/auth/AuthMessages.h:155-168 | the order of the variables does not matter |
| Wire.PacketReadsBack | src/auth/AuthMessages.h:104-153 | each message of the helper is read as it was written |
| Wire.ReleaseReadsBack | src/auth/Auth.cpp:414-416 | environment and cookie of the release arrive |
| Wire.SafeDataStream.Send | src/common/SafeDataStream.cpp:31-50 | one frame goes out however little the device takes at a time |
| Wire.SafeDataStream.Receive | src/common/SafeDataStream.cpp:52-76 | one frame comes in however little the device gives, and nothing of the next |
| Wire.AnyTimeInOrder | src/common/SafeDataStream.cpp:31-76 | however writing and reading take turns, what has arrived whole at any time is a prefix of what was sent, and nothing more is there |
| Wire.Transfer | src/common/SafeDataStream.cpp:31-76 | any messages are received as sent, in order |
| FingerprintSession.StepKeepsSound | src/common/FingerprintSession.cpp:26-96 | every event keeps runs, state and counts in agreement |
| FingerprintSession.RunsAreOrderly | src/common/FingerprintSession.cpp:56-90 | runs start and stop in turn, one is live exactly while listening and for the user; runs are accepted probes plus slow failures; n restarts take n times the quick-failure time |
| FingerprintSession.InTurn | src/greeter-classic/lock/fingerprintunlock.cpp:47-98 | every prefix of the history has at most one run live |
| FingerprintSession.DormantUntilStarted | src/common/FingerprintSession.cpp:40-54 | after giving up nothing happens until the next start |
| FingerprintSession.OnlyAnAcceptedProbeBegins | src/common/FingerprintSession.cpp:47-54 | listening begins if and only if the pending probe succeeds |
| FingerprintSession.LateResultsAreIgnored | src/greeter-classic/lock/fingerprintunlock.cpp:53-86 | results of replaced runs change nothing |
| FingerprintSession.LiveRun | src/common/FingerprintSession.cpp:56-68 | rejections and time of the last sign are what the history of the live run since its beginning says |
| FingerprintSession.RunEnds | src/common/FingerprintSession.cpp:70-90 | after a run ends: idle if and only if it matched; listening again if and only if it failed long after its last sign; given up if and only if it failed quickly after a rejection; unavailable otherwise |
| FingerprintSession.OtherEnds | src/common/FingerprintSession.cpp:40-54 | every other way to stop: idle exactly when told to, unavailable exactly by a prompt or a failed probe |
| FingerprintSession.FingerprintUnlock.Start | src/common/FingerprintSession.cpp:26-38 | the objects take the steps that the invariant is proved for |
| FingerprintSession.FingerprintUnlock.StopRun | src/greeter-classic/lock/fingerprintunlock.cpp:90-98 | the end of a stopped run, delivered inside, is already a late result |
| FingerprintSession.FingerprintUnlock.RunFinished | src/common/FingerprintSession.cpp:70-90 | match, restart, giving up or unavailability, by time and rejections |
| MediaController.SelectedAgrees | src/lock-common/mediacontroller.cpp:342-357 | whatever was active before, after selecting the list and the map have the same players, the active one is a player, plays if any does, and is polled exactly if it plays |
| MediaController.SelectedIs | src/lock-common/mediacontroller.cpp:342-357 | which player is shown: an active one that plays, else the oldest that plays, else the one shown before, else the oldest |
| MediaController.WithoutOne | src/lock-common/mediacontroller.cpp:315-324 | removing a player leaves the others in their order |
| MediaController.FirstPlayingFinds | src/lock-common/mediacontroller.cpp:345-351 | the loop over the list finds a player that plays if there is one |
| MediaController.Controller.AddPlayer | src/lock-common/mediacontroller.cpp:285-296 | a new player is listed last, the choice is made anew, and all parts agree |
| MediaController.Controller.RemovePlayer | src/lock-common/mediacontroller.cpp:315-324 | the player is gone from both, the choice is made anew, and all parts agree |
| MediaController.Controller.PlayerChanged | src/lock-common/mediacontroller.cpp:330-340 | a player that plays takes over; a signal of one that has gone does no harm |
| MediaController.Controller.SelectActive | src/lock-common/mediacontroller.cpp:342-357 | the loop chooses what the choice rule says |

## Left out

Assumptions about the surroundings of the login protocol:

- The helper process starts when it is told to; a failed launch only raises an error in the source. HELLO and the connection of its socket are part of starting.
- A helper that is told to terminate does so within the time Auth waits. Messages of a helper that have not been read when its process ends, told to or not, are dropped; in the source they may still be read.
- The user name PAM reports for an accepted login is not empty, and a helper closes its PAM session without another conversation.
- A greeter's connection lives until its request is resolved. Timers that are armed fire.
- A display that has stopped is replaced by a new one and gets no further requests.

What the models do not have:

- DisplayDaemon.Display.RemoveSession: collects the sessions to keep; that the source removes from the list it iterates over is not modelled.
- DisplayDaemon.Display.StartAuth: environment variables, terminals, cookies and the compositor's command line are not modelled, only validity, user, session type, command and reuse.
- Handshake.AfterReply: the helper's sequential code appears as the places where it blocks, because what is proved interleaves it with the daemon; utmp records and the session's environment are not modelled.
- ConfigReader.ConfigBase.Save: is stated for files that end in a newline and have no renamed section headers, for entry names without `%` (they are C++ identifiers) and for values that fit on a line. Nothing is said of a file with an unknown assignment that its template turns into a header, as `ConfigSaved.BecomesHeader` shows. Saving a single entry or section is not modelled. Remarks at the end of the file that nothing follows are dropped, as in the source.
- PlaceMarkers.Arg: is QString::arg for text arguments without field width; digits are those of ASCII.
- ConfigValue.Parse: numbers are read in decimal, white space and letter case are those of ASCII, and entries of enumeration type are left out.
- GreeterSettings.SaveGeneralSetting: directories that cannot be made and files that cannot be opened or written are not modelled.
- Wire.SafeDataStream.Receive: the eight bytes of a header arrive together; closed devices and negative lengths are not modelled.
- FingerprintSession.FingerprintUnlock.RunFinished: what listeners do in response to the Matched signal is not modelled.
- PAM, logind, D-Bus, virtual terminals, utmp, display servers and the processes themselves: they appear as events and replies only.
- Termination and resolution of logind sessions, the last user and session, and the choice of the automatic-login session: data plumbing.
- Seats, power, keyboards, themes, desktop entries and user lists: easy members.
- MediaController.Controller.PlayerChanged: titles, positions and the other properties of a player are not modelled, only its playback status.
- Loading several configuration files by modification time: each file is read as modelled.
