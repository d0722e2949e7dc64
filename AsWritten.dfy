/** The handler of node_helper.js:37-67 as its statements are written, for
    comparison with StatusRelay. It takes the handler to be declared `async`
    (without that, the `await` at line 47 does not parse and nothing runs)
    and follows each statement until one throws. */
module AsWritten {
  import opened Wrappers
  import opened StatusRelay
  import ErrorText

  datatype JsError =
    | SyntaxError(token: string)
    | ReferenceError(name: string)
    | TypeError(property: string)
    | Uncaught(fault: ErrorText.Fault)

  /** An expression's outcome: its value, or the exception it throws. */
  datatype Evaluated<T> = Value(value: T) | Threw(error: JsError)

  /** What `response.json()` is bound to: the parsed body once awaited, or a
      pending promise, which has none of the body's properties. */
  datatype Body = Awaited(data: StatusData) | Pending

  /** Where one call of the handler ends: the URLs fetched, the notifications
      sent, and the exception that stopped it, if any. */
  datatype Trace = Trace(requested: seq<string>, sent: seq<Notification>, thrown: Option<JsError>)

  /** Whether the handler of line 37 is declared `async`: it is not. */
  const HandlerDeclaredAsync := false

  /** Loading the file: the `await` of line 47 outside an async function is
      a SyntaxError, and then nothing in the file runs. */
  function Load(handlerAsync: bool): (r: Evaluated<()>)
    ensures r.Threw? <==> !handlerAsync
  {
    if handlerAsync then Value(()) else Threw(SyntaxError("await"))
  }

  /** The names the handler and the file declare, and the globals it uses. */
  const HandlerScope: set<string> := {
    "notification", "payload", "arg", "startTime", "helper", "url", "response", "data",
    "online", "players", "maxPlayers", "playerList", "motd", "gamemode", "version", "icon",
    "NodeHelper", "module", "require", "fetch", "console", "Date"}

  /** The object literal of lines 49-52, whose `message` reads the name `err`. */
  function ErrorPayload(payload: Request, response: Response): (r: Evaluated<Notification>)
    ensures r == Threw(ReferenceError("err"))
  {
    if "err" in HandlerScope then Value(MinecraftError(payload.identifier, ErrorText.Classify(response.fault)))
    else Threw(ReferenceError("err"))
  }

  /** `data.players.online` (line 55): reading a property of a missing
      `players` throws. */
  function PlayersOnlineOf(body: Body): (r: Evaluated<Option<int>>)
    ensures r.Threw? <==> body.Pending? || body.data.players.None?
  {
    match body
    case Pending => Threw(TypeError("online"))
    case Awaited(data) =>
      if data.players.None? then Threw(TypeError("online")) else Value(data.players.value.online)
  }

  /** `data.motd.clean` (line 58): reading a property of a missing `motd` throws. */
  function MotdCleanOf(body: Body): (r: Evaluated<Option<seq<string>>>)
    ensures r.Threw? <==> body.Pending? || body.data.motd.None?
  {
    match body
    case Pending => Threw(TypeError("clean"))
    case Awaited(data) =>
      if data.motd.None? then Threw(TypeError("clean")) else Value(data.motd.value.clean)
  }

  /** The object literal of lines 62-66, whose `latency` reads the name `timeSec`. */
  function UpdatePayload(payload: Request, players: Option<int>, latency: nat): (r: Evaluated<Notification>)
    ensures r == Threw(ReferenceError("timeSec"))
  {
    if "timeSec" in HandlerScope then Value(MinecraftUpdate(payload.identifier, players, latency))
    else Threw(ReferenceError("timeSec"))
  }

  /** The handler statement by statement. `awaitJson` says whether line 53
      awaits the body; as written it does not. There is no `return` after the
      error send, so control goes on to line 53 in either case. */
  function Handle(notification: string, payload: Request, fetch: string -> Response, latency: nat, awaitJson: bool): Trace {
    if notification != Ping then Trace([], [], None)
    else
      var url := Endpoint(payload);
      match fetch(url)
      case Rejected(fault) =>
        // line 47: awaiting a rejected fetch throws its fault, and nothing catches it
        Trace([url], [], Some(Uncaught(fault)))
      case Answered(ok, _, data) =>
        var errorStep: Evaluated<seq<Notification>> :=
          if ok then Value([])
          else match ErrorPayload(payload, fetch(url))
            case Threw(e) => Threw(e)
            case Value(n) => Value([n]);
        match errorStep
        case Threw(e) => Trace([url], [], Some(e))
        case Value(sentSoFar) =>
          var body := if awaitJson then Awaited(data) else Pending;
          match PlayersOnlineOf(body)
          case Threw(e) => Trace([url], sentSoFar, Some(e))
          case Value(players) =>
            match MotdCleanOf(body)
            case Threw(e) => Trace([url], sentSoFar, Some(e))
            case Value(_) =>
              match UpdatePayload(payload, players, latency)
              case Threw(e) => Trace([url], sentSoFar, Some(e))
              case Value(n) => Trace([url], sentSoFar + [n], None)
  }

  /** As written, the file does not load. */
  lemma FileDoesNotParse()
    ensures Load(HandlerDeclaredAsync) == Threw(SyntaxError("await"))
  {
  }

  /** As written, a rejected fetch (a time-out, a refused connection, ...)
      escapes the handler at line 47 with its fault, before anything is sent
      and without reaching the classifier. */
  lemma RejectionEscapes(payload: Request, fetch: string -> Response, latency: nat, awaitJson: bool)
    requires fetch(Endpoint(payload)).Rejected?
    ensures Handle(Ping, payload, fetch, latency, awaitJson).sent == []
    ensures Handle(Ping, payload, fetch, latency, awaitJson).thrown == Some(Uncaught(fetch(Endpoint(payload)).fault))
  {
  }

  /** As written, an HTTP response that is not ok stops the handler with a
      ReferenceError on `err` before anything is sent. */
  lemma NotOkPathThrows(payload: Request, fetch: string -> Response, latency: nat, awaitJson: bool)
    requires fetch(Endpoint(payload)).Answered? && !fetch(Endpoint(payload)).ok
    ensures Handle(Ping, payload, fetch, latency, awaitJson).sent == []
    ensures Handle(Ping, payload, fetch, latency, awaitJson).thrown == Some(ReferenceError("err"))
  {
  }

  /** As written, an ok response stops the handler with a TypeError at line
      55: the body was never awaited, so `data.players` is undefined. */
  lemma OkPathThrows(payload: Request, fetch: string -> Response, latency: nat)
    requires fetch(Endpoint(payload)).Answered? && fetch(Endpoint(payload)).ok
    ensures Handle(Ping, payload, fetch, latency, false).sent == []
    ensures Handle(Ping, payload, fetch, latency, false).thrown == Some(TypeError("online"))
  {
  }

  /** Even with the body awaited, an ok response for a server that reports
      players and motd stops with a ReferenceError on `timeSec`, and one
      whose body lacks `players` or `motd` stops with a TypeError. */
  lemma AwaitedOkPathStillThrows(payload: Request, fetch: string -> Response, latency: nat)
    requires fetch(Endpoint(payload)).Answered? && fetch(Endpoint(payload)).ok
    ensures Handle(Ping, payload, fetch, latency, true).sent == []
    ensures var data := fetch(Endpoint(payload)).data;
      Handle(Ping, payload, fetch, latency, true).thrown ==
        if data.players.None? then Some(TypeError("online"))
        else if data.motd.None? then Some(TypeError("clean"))
        else Some(ReferenceError("timeSec"))
  {
  }

  /** So as written no ping is ever answered, while the intended relay
      answers every ping exactly once. */
  lemma NoPingIsAnswered(payload: Request, fetch: string -> Response, latency: nat, awaitJson: bool)
    ensures Handle(Ping, payload, fetch, latency, awaitJson).sent == []
    ensures |Receive(Ping, payload, fetch, latency)| == 1
  {
  }
}
