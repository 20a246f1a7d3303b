/**
 * server.go: option validation, the write-once response status, the mapping
 * from handler errors to HTTP responses, and the dispatch of webhook events.
 * Signature validation and payload parsing are foreign: only their outcome is
 * an input. Creating and starting the runner is an input function too.
 */
module Server {
  import opened Wrappers
  import opened GitHub

  /** An RSA private key; its content does not matter here. */
  datatype PrivateKey = PrivateKey(id: nat)

  /** A logger; only its presence matters here. */
  datatype Logger = Logger(id: nat)

  /** A minute as a Go `time.Duration`, in nanoseconds. */
  const Minute: int := 60_000_000_000

  /** The timeout `NewServer` puts in place of a non-positive one. */
  const DefaultTimeout: int := 60 * Minute

  datatype LinterOptions = LinterOptions(linters: seq<string>, includeLinterName: bool)

  class Options {
    var privateKey: Option<PrivateKey>
    var webhookSecret: seq<byte>       // a Go string is its bytes
    var webHookSecretBytes: seq<byte>  // the unexported copy `NewServer` makes
    var appID: int
    var logger: Option<Logger>
    var timeout: int                   // nanoseconds
    var defaultLinterOptions: LinterOptions

    constructor (privateKey: Option<PrivateKey>, webhookSecret: seq<byte>, appID: int,
                 logger: Option<Logger>, timeout: int, defaultLinterOptions: LinterOptions)
      ensures this.privateKey == privateKey && this.webhookSecret == webhookSecret
      ensures this.webHookSecretBytes == []
      ensures this.appID == appID && this.logger == logger && this.timeout == timeout
      ensures this.defaultLinterOptions == defaultLinterOptions
    {
      this.privateKey := privateKey;
      this.webhookSecret := webhookSecret;
      this.webHookSecretBytes := [];
      this.appID := appID;
      this.logger := logger;
      this.timeout := timeout;
      this.defaultLinterOptions := defaultLinterOptions;
    }
  }

  datatype Server = Server(options: Options)

  /** The rejections of `NewServer`, in the order it checks them. */
  datatype OptionsError = NoOptions | NoPrivateKey | NoWebhookSecret | NoAppID | NoLogger

  function OptionsErrorRank(e: OptionsError): nat {
    match e
    case NoOptions => 0
    case NoPrivateKey => 1
    case NoWebhookSecret => 2
    case NoAppID => 3
    case NoLogger => 4
  }

  /** Whether the requirement behind `e` is unmet, judged on its own. */
  predicate Unmet(present: bool, privateKey: Option<PrivateKey>, secret: seq<byte>, appID: int,
                  logger: Option<Logger>, e: OptionsError) {
    match e
    case NoOptions => !present
    case NoPrivateKey => privateKey.None?
    case NoWebhookSecret => secret == []
    case NoAppID => appID == 0
    case NoLogger => logger.None?
  }

  /** The verdict of `NewServer`'s checks: the first unmet requirement, if any. */
  function CheckOptions(present: bool, privateKey: Option<PrivateKey>, secret: seq<byte>, appID: int,
                        logger: Option<Logger>): (r: Option<OptionsError>)
    ensures r.Some? ==>
      Unmet(present, privateKey, secret, appID, logger, r.value) &&
      forall e :: OptionsErrorRank(e) < OptionsErrorRank(r.value) ==> !Unmet(present, privateKey, secret, appID, logger, e)
    ensures r.None? ==> forall e :: !Unmet(present, privateKey, secret, appID, logger, e)
  {
    if !present then Some(NoOptions)
    else if privateKey.None? then Some(NoPrivateKey)
    else if secret == [] then Some(NoWebhookSecret)
    else if appID == 0 then Some(NoAppID)
    else if logger.None? then Some(NoLogger)
    else None
  }

  /**
   * `NewServer`: rejects the options at the first unmet requirement. Once the
   * secret is known to be non-empty its bytes are copied, even if a later
   * check rejects; an accepted server gets the default timeout when its own is
   * not positive.
   */
  method NewServer(options: Options?) returns (r: Result<Server, OptionsError>)
    modifies options
    ensures options == null ==> r == Failure(NoOptions)
    ensures options != null ==>
      var verdict := CheckOptions(true, old(options.privateKey), old(options.webhookSecret),
                                  old(options.appID), old(options.logger));
      && r == (if verdict.Some? then Failure(verdict.value) else Success(Server(options)))
      && options.webHookSecretBytes ==
           (if old(options.privateKey).Some? && old(options.webhookSecret) != []
            then old(options.webhookSecret) else old(options.webHookSecretBytes))
      && options.timeout ==
           (if r.Success? && old(options.timeout) <= 0 then DefaultTimeout else old(options.timeout))
      && options.privateKey == old(options.privateKey)
      && options.webhookSecret == old(options.webhookSecret)
      && options.appID == old(options.appID)
      && options.logger == old(options.logger)
      && options.defaultLinterOptions == old(options.defaultLinterOptions)
  {
    if options == null {
      return Failure(NoOptions);
    }
    if options.privateKey.None? {
      return Failure(NoPrivateKey);
    }
    if options.webhookSecret == [] {
      return Failure(NoWebhookSecret);
    }
    options.webHookSecretBytes := options.webhookSecret;
    if options.appID == 0 {
      return Failure(NoAppID);
    }
    if options.logger.None? {
      return Failure(NoLogger);
    }
    if options.timeout <= 0 {
      options.timeout := 60 * Minute;
    }
    return Success(Server(options));
  }

  // ---------------------------------------------------------------- write-once status

  /** A writer's flag and the statuses it has passed on to the wrapped response. */
  datatype WriterState = WriterState(writtenStatus: bool, forwarded: seq<int>)

  const FreshWriter := WriterState(false, [])

  /** One `WriteHeader` call: passed on only if no status was written before. */
  function WriteHeaderStep(s: WriterState, statusCode: int): WriterState {
    if s.writtenStatus then s else WriterState(true, s.forwarded + [statusCode])
  }

  /** The state after a series of `WriteHeader` calls, in order. */
  function AfterWrites(s: WriterState, codes: seq<int>): WriterState
    decreases |codes|
  {
    if codes == [] then s else AfterWrites(WriteHeaderStep(s, codes[0]), codes[1..])
  }

  /** Once a status is written, later calls change nothing. */
  lemma {:induction false} WrittenWriterIgnoresWrites(s: WriterState, codes: seq<int>)
    requires s.writtenStatus
    ensures AfterWrites(s, codes) == s
  {
    if codes != [] {
      WrittenWriterIgnoresWrites(WriteHeaderStep(s, codes[0]), codes[1..]);
    }
  }

  /** Of any series of calls on a fresh writer, only the first status reaches the response. */
  lemma FirstStatusWins(codes: seq<int>)
    ensures AfterWrites(FreshWriter, codes).forwarded == if codes == [] then [] else [codes[0]]
    ensures AfterWrites(FreshWriter, codes).writtenStatus <==> codes != []
  {
    if codes != [] {
      WrittenWriterIgnoresWrites(WriteHeaderStep(FreshWriter, codes[0]), codes[1..]);
    }
  }

  /** The response writer wrapper that lets only the first status through. */
  class Writer {
    var writtenStatus: bool
    var forwarded: seq<int>  // statuses passed to the wrapped response writer

    function State(): WriterState
      reads this
    {
      WriterState(writtenStatus, forwarded)
    }

    /** At most one status has been passed on, and the flag says whether one has. */
    predicate Valid()
      reads this
    {
      |forwarded| <= 1 && (writtenStatus <==> |forwarded| == 1)
    }

    constructor ()
      ensures State() == FreshWriter && Valid()
    {
      writtenStatus := false;
      forwarded := [];
    }

    method WriteHeader(statusCode: int)
      requires Valid()
      modifies this
      ensures Valid()
      ensures State() == WriteHeaderStep(old(State()), statusCode)
    {
      if writtenStatus {
        return;
      }
      writtenStatus := true;
      forwarded := forwarded + [statusCode];
    }
  }

  // ---------------------------------------------------------------- errors to responses

  /** The errors a handler returns: the wire error record, or any other error with its text. */
  datatype HandlerError =
    | WireError(statusCode: int, publicError: Option<string>, privateError: Option<string>)
    | OtherError(text: string)

  /** What `http.Error` sends: the status and the text followed by a newline. */
  datatype ErrorReply = ErrorReply(status: int, body: string)

  const InternalServerError: int := 500
  const BadRequest: int := 400
  const OK: int := 200

  /**
   * The response for a handler error: a wire error keeps its status unless it
   * is 0 and shows only its public text, "error" when it has none; any other
   * error is a 500 with its own text.
   */
  function ErrorReplyFor(e: HandlerError): (r: ErrorReply)
    ensures r.status != 0
    ensures e.WireError? && e.statusCode != 0 ==> r.status == e.statusCode
    ensures e.WireError? && e.statusCode == 0 ==> r.status == InternalServerError
    ensures e.WireError? && e.publicError.Some? ==> r.body == e.publicError.value + "\n"
    ensures e.WireError? && e.publicError.None? ==> r.body == "error\n"
    ensures e.OtherError? ==> r == ErrorReply(InternalServerError, e.text + "\n")
  {
    match e
    case WireError(status, public, _) =>
      var status := if status == 0 then InternalServerError else status;
      var public := if public.None? then "error" else public.value;
      ErrorReply(status, public + "\n")
    case OtherError(text) => ErrorReply(InternalServerError, text + "\n")
  }

  /** The private part of a wire error never reaches the response. */
  lemma PrivateErrorNotShown(status: int, public: Option<string>, p1: Option<string>, p2: Option<string>)
    ensures ErrorReplyFor(WireError(status, public, p1)) == ErrorReplyFor(WireError(status, public, p2))
  {
  }

  /**
   * The closure `handler` returns, after the wrapped handler has run with `w`
   * and returned `err`: an error becomes an error response; success writes 200
   * through the writer, which passes it on only if no status was written yet.
   */
  method Handle(w: Writer, err: Option<HandlerError>) returns (reply: Option<ErrorReply>)
    requires w.Valid()
    modifies w
    ensures w.Valid()
    ensures err.Some? ==> reply == Some(ErrorReplyFor(err.value)) && w.State() == old(w.State())
    ensures err.None? ==> reply.None? && w.State() == WriteHeaderStep(old(w.State()), OK)
  {
    if err.Some? {
      return Some(ErrorReplyFor(err.value));
    }
    w.WriteHeader(OK);
    return None;
  }

  // ---------------------------------------------------------------- webhook events

  /** A parsed webhook event; any other event type is known by its type name. */
  datatype WebhookEvent =
    | PullRequestEvent(action: Option<string>, pullRequest: Option<PullRequest>, installation: Option<Installation>)
    | PingEvent
    | InstallationEvent
    | OtherEvent(typeName: string)

  /** The actions that start a run. */
  const HandledActions: set<string> := {"opened", "reopened", "synchronize"}

  /**
   * `handlePullRequestOpened`: both the pull request and the installation must
   * be present; then the runner is created, and a failure to create it is
   * reported with a public text. `newRunner` gives the creation's error text,
   * if any.
   */
  function HandlePullRequestOpened(
    pr: Option<PullRequest>, inst: Option<Installation>,
    newRunner: (PullRequest, Installation) -> Option<string>): (r: Option<HandlerError>)
    ensures pr.None? ==> r == Some(WireError(0, None, Some("unable to get pull request from event")))
    ensures pr.Some? && inst.None? ==> r == Some(WireError(0, None, Some("unable to get installation from event")))
    ensures pr.Some? && inst.Some? && newRunner(pr.value, inst.value).None? ==> r.None?
    ensures pr.Some? && inst.Some? && newRunner(pr.value, inst.value).Some? ==>
      r == Some(WireError(0, Some("unable to create runner"),
                          Some("unable to create runner: " + newRunner(pr.value, inst.value).value)))
    ensures r.Some? ==> r.value.WireError? && r.value.statusCode == 0
  {
    if pr.None? then Some(WireError(0, None, Some("unable to get pull request from event")))
    else if inst.None? then Some(WireError(0, None, Some("unable to get installation from event")))
    else
      match newRunner(pr.value, inst.value)
      case Some(cause) =>
        Some(WireError(0, Some("unable to create runner"), Some("unable to create runner: " + cause)))
      case None => None
  }

  /** `handlePullRequest`: only opened, reopened and synchronized pull requests are handled. */
  function HandlePullRequest(
    action: Option<string>, pr: Option<PullRequest>, inst: Option<Installation>,
    newRunner: (PullRequest, Installation) -> Option<string>): (r: Option<HandlerError>)
    ensures Str(action) !in HandledActions ==> r.None?
    ensures Str(action) in HandledActions ==> r == HandlePullRequestOpened(pr, inst, newRunner)
  {
    var a := Str(action);
    if a == "opened" || a == "reopened" || a == "synchronize" then
      HandlePullRequestOpened(pr, inst, newRunner)
    else None
  }

  /** How `%T` prints a possibly nil event. */
  function EventTypeName(event: Option<WebhookEvent>): string {
    match event
    case None => "<nil>"
    case Some(PullRequestEvent(_, _, _)) => "*github.PullRequestEvent"
    case Some(PingEvent) => "*github.PingEvent"
    case Some(InstallationEvent) => "*github.InstallationEvent"
    case Some(OtherEvent(name)) => name
  }

  /**
   * `handleEvent`: a payload that fails validation is a bad request; pull-request
   * events are dispatched; ping and installation events are accepted; anything
   * else, including a nil event (an event type the parser does not know), is an
   * unknown event. The parser's error is ignored, so a known event that failed to
   * decode is dispatched as whatever partly filled event it returned.
   */
  function HandleEvent(
    payloadValid: bool, event: Option<WebhookEvent>,
    newRunner: (PullRequest, Installation) -> Option<string>): (r: Option<HandlerError>)
    ensures !payloadValid ==>
      r == Some(WireError(BadRequest, Some("unable to validate payload"), Some("invalid payload")))
    ensures payloadValid && event.Some? && (event.value.PingEvent? || event.value.InstallationEvent?) ==> r.None?
    ensures payloadValid && event.Some? && event.value.PullRequestEvent? ==>
      r == HandlePullRequest(event.value.action, event.value.pullRequest, event.value.installation, newRunner)
    ensures payloadValid && (event.None? || event.value.OtherEvent?) ==>
      r == Some(WireError(BadRequest, Some("unknown event"), Some("unknown event " + EventTypeName(event))))
  {
    if !payloadValid then
      Some(WireError(BadRequest, Some("unable to validate payload"), Some("invalid payload")))
    else
      match event
      case Some(PullRequestEvent(action, pr, inst)) => HandlePullRequest(action, pr, inst, newRunner)
      case Some(PingEvent) => None
      case Some(InstallationEvent) => None
      case _ => Some(WireError(BadRequest, Some("unknown event"), Some("unknown event " + EventTypeName(event))))
  }

  /** The status a webhook request is answered with (the fresh writer saw no earlier status). */
  function ResponseStatus(err: Option<HandlerError>): int {
    if err.None? then OK else ErrorReplyFor(err.value).status
  }

  /**
   * Every webhook request is answered 200, 400 or 500, and an error response
   * shows one of four public texts, never a private one.
   */
  lemma WebhookResponses(
    payloadValid: bool, event: Option<WebhookEvent>,
    newRunner: (PullRequest, Installation) -> Option<string>)
    ensures var err := HandleEvent(payloadValid, event, newRunner);
      && ResponseStatus(err) in {OK, BadRequest, InternalServerError}
      && (err.Some? ==>
            ErrorReplyFor(err.value).body in
              {"unable to validate payload\n", "unknown event\n", "error\n", "unable to create runner\n"})
      && (ResponseStatus(err) == OK <==>
            payloadValid && event.Some? &&
            (event.value.PingEvent? || event.value.InstallationEvent? ||
             (event.value.PullRequestEvent? &&
              (Str(event.value.action) !in HandledActions ||
               (event.value.pullRequest.Some? && event.value.installation.Some? &&
                newRunner(event.value.pullRequest.value, event.value.installation.value).None?)))))
  {
    assert "unable to validate payload" + "\n" == "unable to validate payload\n";
    assert "unknown event" + "\n" == "unknown event\n";
    assert "error" + "\n" == "error\n";
    assert "unable to create runner" + "\n" == "unable to create runner\n";
  }
}
