/** Vocabulary shared by the daemon, its authentication helper and the greeter. */
module LoginTypes {

  datatype Option<+T> = None | Some(value: T)

  /** One Login or FingerprintLogin message. The code only ever looks at the connection (`socket`);
      `id` numbers the messages so that properties can tell two of them apart. */
  datatype Request = Request(id: nat, socket: nat, fingerprint: bool)

  /** What `startAuth` reads of a desktop session entry. */
  datatype SessionChoice = SessionChoice(valid: bool, x11: bool, xdgType: string, exec: string)
  {
    predicate Usable() {
      valid && xdgType != "" && exec != ""
    }
  }

  datatype ExitStatus =
    | HelperSuccess | HelperAuthError | HelperSessionError
    | HelperOtherError | HelperDisplayServerError | HelperTtyError

  datatype HelperExit = Crashed(message: string) | Exited(code: int)
  {
    /** The status Auth reports for a finished helper process. */
    function Status(): ExitStatus {
      match this
      case Crashed(_) => HelperOtherError
      case Exited(code) =>
        if code == 0 then HelperSuccess
        else if code == 1 then HelperAuthError
        else if code == 2 then HelperSessionError
        else if code == 4 then HelperDisplayServerError
        else if code == 5 then HelperTtyError
        else HelperOtherError
    }
  }

  datatype Prompt = Prompt(kind: nat, message: string, hidden: bool, response: string)

  datatype ErrorKind = NoError | UnknownError | AuthenticationError | InternalError

  /** Messages the helper sends. An empty user in `Authenticated` means that PAM refused. */
  datatype HelperMessage =
    | Info(text: string)
    | Error(text: string, kind: ErrorKind)
    | PromptRequest(prompts: seq<Prompt>)
    | Authenticated(user: string)
    | SessionStatus(ok: bool)

  /** Messages the daemon sends back; the helper blocks until it has one. */
  datatype Reply =
    | PromptReply(prompts: seq<Prompt>)
    | AuthenticatedReply
    | SessionStatusReply

  /** A row of logind's session list. */
  datatype SessionEntry = SessionEntry(id: string, userName: string)

  datatype Properties = Properties(service: string, state: string, sessionClass: string, sessionType: string)

  /** Whether and with what an automatic login is to be attempted. */
  datatype AutologinPlan =
    | NotRequested
    | NoSessionFound
    | AutologinAs(user: string, session: SessionChoice, canReuse: bool)

  /** Everything a display does that another party can see. `PamAccepted`, `QuietlyCancelled`,
      `TransitionOver` and `HelperEnded` mark moments rather than messages. */
  datatype Output =
    | LoginSucceeded(request: Request)
    | LoginFailed(request: Request)
    | FingerprintFinished(request: Request)
    | QuietlyCancelled(request: Request)
    | FingerprintRejected(request: Request, text: string)
    | Information(request: Request, text: string)
    | PrepareTransition(request: Request, preserveBackground: bool)
    | TransitionOver
    | HelperStarted(user: string, path: string, autologin: bool, fingerprint: bool)
    | HelperEnded
    | PamAccepted(owner: Option<Request>)
    | SendReply(reply: Reply)
    | ListSessions
    | GetProperties(id: string)
    | UnlockSession(id: string)
    | ActivateSession(id: string)
    | SessionRegistered
    | SessionUnregistered
    | StartDisplayServer
    | GreeterStarted
    | GreeterStopped
    | DisplayStopped

  /** The request an output settles, if it settles one. */
  function Settles(o: Output): Option<Request> {
    match o
    case LoginSucceeded(r) => Some(r)
    case LoginFailed(r) => Some(r)
    case FingerprintFinished(r) => Some(r)
    case QuietlyCancelled(r) => Some(r)
    case _ => None
  }

  /** The answers a password login gives to one or two prompts; nothing else is answered. */
  function Answers(prompts: seq<Prompt>, user: string, passPhrase: string): Option<seq<Prompt>> {
    if |prompts| == 1 then
      Some([prompts[0].(response := passPhrase)])
    else if |prompts| == 2 then
      Some([prompts[0].(response := user), prompts[1].(response := passPhrase)])
    else
      None
  }
}
