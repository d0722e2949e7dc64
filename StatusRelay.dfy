/** The relay `socketNotificationReceived` (node_helper.js:37-67): on a
    MINECRAFT_PING it asks the status service about `hostname:port` and
    broadcasts one MINECRAFT_ERROR or one MINECRAFT_UPDATE addressed by the
    request's identifier. The service call is a parameter; the broadcast is
    the returned sequence of notifications. */
module StatusRelay {
  import opened Wrappers
  import opened JsText
  import ErrorText

  /** The value of `payload.bedrock`: missing, a boolean, or anything else
      (a string "true", a number, ...). */
  datatype JsFlag = Undefined | Boolean(b: bool) | OtherValue

  /** The MINECRAFT_PING payload a widget sends. */
  datatype Request = Request(hostname: string, port: nat, identifier: string, bedrock: JsFlag)

  /** The `players` object of the service's JSON body. */
  datatype Players = Players(online: Option<int>, max: Option<int>, list: Option<seq<string>>)

  /** The `motd` object of the service's JSON body. */
  datatype Motd = Motd(clean: Option<seq<string>>)

  /** The parsed JSON body: every field the source reads, each possibly absent. */
  datatype StatusData = StatusData(
    online: Option<bool>,
    players: Option<Players>,
    motd: Option<Motd>,
    gamemode: Option<string>,
    version: Option<string>,
    icon: Option<string>)

  /** What the service call yields: either an HTTP response (its `ok` flag,
      the fault handed to the classifier when it is false, and the body when
      it is true), or a rejection of the fetch with the network fault. */
  datatype Response =
    | Answered(ok: bool, fault: ErrorText.Fault, data: StatusData)
    | Rejected(fault: ErrorText.Fault)
  {
    /** The call failed: the fetch was rejected or its response is not ok. */
    predicate Failed() {
      Rejected? || !ok
    }
  }

  /** The notifications the relay broadcasts. */
  datatype Notification =
    | MinecraftError(identifier: string, message: string)
    | MinecraftUpdate(identifier: string, players: Option<int>, latency: nat)
  {
    function Identifier(): string {
      match this
      case MinecraftError(id, _) => id
      case MinecraftUpdate(id, _, _) => id
    }
  }

  const Ping := "MINECRAFT_PING"
  const JavaBase := "https://api.mcsrvstat.us/3/"
  const BedrockBase := "https://api.mcsrvstat.us/bedrock/3/"

  /** `payload.bedrock === true`: only the boolean true selects Bedrock. */
  predicate IsStrictlyTrue(flag: JsFlag) {
    flag == Boolean(true)
  }

  /** The `hostname:port` argument. */
  function Arg(hostname: string, port: nat): string {
    hostname + ":" + NumberToString(port)
  }

  /** The base URL of the service variant the request selects. */
  function BaseUrl(flag: JsFlag): string {
    if IsStrictlyTrue(flag) then BedrockBase else JavaBase
  }

  /** The URL the relay fetches for a request. */
  function Endpoint(req: Request): string {
    BaseUrl(req.bedrock) + Arg(req.hostname, req.port)
  }

  /** `data.players.online`, absent when either level is absent. */
  function PlayersOnline(data: StatusData): Option<int> {
    if data.players.Some? then data.players.value.online else None
  }

  /** The one notification answering a request, given the service's response
      and the elapsed time. */
  function Reply(req: Request, resp: Response, latency: nat): Notification {
    if resp.Failed() then MinecraftError(req.identifier, ErrorText.Classify(resp.fault))
    else MinecraftUpdate(req.identifier, PlayersOnline(resp.data), latency)
  }

  /** Everything the relay broadcasts for one incoming notification, when the
      service answers each URL as `fetch` does. Other notifications are ignored. */
  function Receive(notification: string, req: Request, fetch: string -> Response, latency: nat): seq<Notification> {
    if notification == Ping then [Reply(req, fetch(Endpoint(req)), latency)] else []
  }

  /** The handler step by step, as the source runs it: build the argument,
      pick the base URL, fetch, and send one notification. `requested` lists
      the URLs fetched and `sent` the notifications broadcast. */
  method SocketNotificationReceived(notification: string, payload: Request, fetch: string -> Response, latency: nat)
    returns (requested: seq<string>, sent: seq<Notification>)
    ensures requested == if notification == Ping then [Endpoint(payload)] else []
    ensures sent == Receive(notification, payload, fetch, latency)
  {
    requested, sent := [], [];
    if notification == Ping {
      var arg := payload.hostname + ":" + NumberToString(payload.port);
      var url := JavaBase;
      if payload.bedrock == Boolean(true) {
        url := BedrockBase;
      }
      requested := requested + [url + arg];
      var response := fetch(url + arg);
      if response.Failed() {
        sent := sent + [MinecraftError(payload.identifier, ErrorText.Classify(response.fault))];
      } else {
        var data := response.data;
        var players := if data.players.Some? then data.players.value.online else None;
        sent := sent + [MinecraftUpdate(payload.identifier, players, latency)];
      }
    }
  }

  /** What a URL of the service names: the variant, the host and the port. */
  datatype Target = Target(bedrock: bool, hostname: string, port: nat)

  /** Reads `hostname:port` back, cutting at the last colon. */
  function ParseArg(arg: string): Option<(string, nat)> {
    match SplitAtLast(arg, ':')
    case None => None
    case Some((host, digits)) =>
      if digits != [] && AllDigits(digits) then Some((host, DecimalValue(digits))) else None
  }

  /** Reads a service URL back into what it names. */
  function ParseEndpoint(url: string): Option<Target> {
    var bedrock := BedrockBase <= url;
    if !bedrock && !(JavaBase <= url) then None
    else
      var base := if bedrock then BedrockBase else JavaBase;
      match ParseArg(url[|base|..])
      case None => None
      case Some((host, port)) => Some(Target(bedrock, host, port))
  }

  /** The argument loses nothing: host and port read back from it, whatever
      the host contains (colons included). */
  lemma ArgRoundTrip(hostname: string, port: nat)
    ensures ParseArg(Arg(hostname, port)) == Some((hostname, port))
  {
    var digits := NumberToString(port);
    SplitAtLastJoin(hostname, ':', digits);
    NumberToStringRoundTrip(port);
  }

  /** A URL starts with the Bedrock base exactly when `bedrock` is strictly
      true, and with the Java base exactly when it is not. */
  lemma EndpointSelectsVariant(req: Request)
    ensures BedrockBase <= Endpoint(req) <==> IsStrictlyTrue(req.bedrock)
    ensures JavaBase <= Endpoint(req) <==> !IsStrictlyTrue(req.bedrock)
  {
    var url := Endpoint(req);
    var arg := Arg(req.hostname, req.port);
    if IsStrictlyTrue(req.bedrock) {
      assert url == BedrockBase + arg;
      assert url[25] == 'b' != JavaBase[25];
    } else {
      assert url == JavaBase + arg;
      assert url[25] == '3' != BedrockBase[25];
    }
  }

  /** The URL names exactly the request's variant, host and port. */
  lemma EndpointRoundTrip(req: Request)
    ensures ParseEndpoint(Endpoint(req)) == Some(Target(IsStrictlyTrue(req.bedrock), req.hostname, req.port))
  {
    EndpointSelectsVariant(req);
    var url := Endpoint(req);
    var base := BaseUrl(req.bedrock);
    assert url[|base|..] == Arg(req.hostname, req.port);
    ArgRoundTrip(req.hostname, req.port);
  }

  /** Two requests are sent to the same URL only when they agree on variant,
      host and port. */
  lemma EndpointInjective(r1: Request, r2: Request)
    ensures Endpoint(r1) == Endpoint(r2) <==>
      (IsStrictlyTrue(r1.bedrock) == IsStrictlyTrue(r2.bedrock) && r1.hostname == r2.hostname && r1.port == r2.port)
  {
    EndpointRoundTrip(r1);
    EndpointRoundTrip(r2);
  }

  /** Exactly one notification answers a ping, none anything else; it is an
      error exactly when the service call failed. */
  lemma ExactlyOneReply(notification: string, req: Request, fetch: string -> Response, latency: nat)
    ensures |Receive(notification, req, fetch, latency)| == (if notification == Ping then 1 else 0)
    ensures notification == Ping ==>
      (Receive(notification, req, fetch, latency)[0].MinecraftError? <==> fetch(Endpoint(req)).Failed())
  {
  }

  /** Every notification carries the request's identifier unchanged. */
  lemma IdentifierEchoed(notification: string, req: Request, fetch: string -> Response, latency: nat)
    ensures forall n :: n in Receive(notification, req, fetch, latency) ==> n.Identifier() == req.identifier
  {
  }

  /** A failed call yields the classifier's sentence for its fault, whatever
      the body holds. */
  lemma ErrorCarriesClassifiedFault(req: Request, resp: Response, latency: nat)
    requires resp.Failed()
    ensures Reply(req, resp, latency) == MinecraftError(req.identifier, ErrorText.Classify(resp.fault))
  {
  }

  /** A failed call's message is non-empty whenever the classifier has a
      sentence of its own for the fault, or the fault's own message is
      non-empty. */
  lemma ErrorMessageNonEmpty(req: Request, resp: Response, latency: nat)
    requires resp.Failed()
    requires ErrorText.IsKnown(resp.fault.errno) || resp.fault.message != ""
    ensures |Reply(req, resp, latency).message| > 0
  {
  }

  /** An unknown code with an empty message yields an empty error message,
      as the classifier's default case passes the message through. */
  lemma EmptyMessagePassesThrough(req: Request, resp: Response, latency: nat)
    requires resp.Failed()
    requires !ErrorText.IsKnown(resp.fault.errno) && resp.fault.message == ""
    ensures Reply(req, resp, latency) == MinecraftError(req.identifier, "")
  {
  }

  /** A successful call yields `players.online` and the latency; two bodies
      give the same update exactly when they agree on `players.online`, so
      no other field of the body (online flag, maximum, list, motd, game
      mode, version, icon) reaches the widget. */
  lemma UpdateCarriesOnlyOnlinePlayers(req: Request, r1: Response, r2: Response, latency: nat)
    requires !r1.Failed() && !r2.Failed()
    ensures Reply(req, r1, latency).MinecraftUpdate?
    ensures Reply(req, r1, latency).players == PlayersOnline(r1.data)
    ensures Reply(req, r1, latency).latency == latency
    ensures Reply(req, r1, latency) == Reply(req, r2, latency) <==> PlayersOnline(r1.data) == PlayersOnline(r2.data)
  {
  }

  /** The example request of a Java-edition server on the default port. */
  const ExampleRequest := Request("play.example.com", 25565, "abc", Boolean(false))

  /** The example request is fetched from the Java URL with the port in decimal. */
  lemma ExampleEndpoint()
    ensures Endpoint(ExampleRequest) == "https://api.mcsrvstat.us/3/play.example.com:25565"
  {
  }

  /** The example ping answered with three players online yields an update
      for its identifier. */
  lemma JavaPingScenario(fetch: string -> Response, latency: nat)
    requires !fetch("https://api.mcsrvstat.us/3/play.example.com:25565").Failed()
    requires PlayersOnline(fetch("https://api.mcsrvstat.us/3/play.example.com:25565").data) == Some(3)
    ensures Receive(Ping, ExampleRequest, fetch, latency) == [MinecraftUpdate("abc", Some(3), latency)]
  {
    ExampleEndpoint();
  }

  /** The same ping answered by a time-out yields the time-out sentence. */
  lemma TimeoutScenario(fetch: string -> Response, latency: nat)
    requires fetch("https://api.mcsrvstat.us/3/play.example.com:25565").Failed()
    requires fetch("https://api.mcsrvstat.us/3/play.example.com:25565").fault.errno == Some(ErrorText.TimedOut)
    ensures Receive(Ping, ExampleRequest, fetch, latency) == [MinecraftError("abc", "Timed-out contacting Minecraft server")]
  {
    ExampleEndpoint();
  }
}
