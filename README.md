# MMM-MinecraftStatus node helper, modelled in Dafny

The node helper of the MagicMirror module MMM-MinecraftStatus is meant to
relay status requests from its display widgets to the public status service
api.mcsrvstat.us. When a widget sends `MINECRAFT_PING` with
`{hostname, port, identifier, bedrock}`, the helper is meant to fetch
`https://api.mcsrvstat.us/3/<hostname>:<port>`. When `bedrock` is strictly
`true`, it fetches the `bedrock/3/` variant instead. It is then meant to
broadcast either `MINECRAFT_ERROR {identifier, message}` or
`MINECRAFT_UPDATE {identifier, players, latency}`. Every widget receives the
broadcast and keeps only the messages carrying its own identifier. The error
message comes from `minecraftError2text`. It maps six Node.js network error
codes to sentences and passes any other error's own message through. As
written, the file does not load and no ping is ever answered. "## Findings"
lists why.

The model has five modules:

- `Wrappers`: `Option`, for JavaScript properties that may be undefined.
- `JsText`: how string concatenation prints a non-negative integer (decimal
  digits, no leading zero) and an undefined property (`"undefined"`), and how
  text is cut at its last colon.
- `ErrorText`: the fault record and the classifier `Classify`, with lemmas
  giving each case's sentence and saying exactly which fields of the fault
  each case depends on.
- `StatusRelay`: the request, the service call's outcome as an abstract
  value, and the relay's decisions as pure functions: `Arg`, `BaseUrl`,
  `Endpoint`, `PlayersOnline`, `Reply` and `Receive`. The outcome is either
  an HTTP response or a rejected fetch. A response has an `ok` flag, the fault
  the classifier receives, and a body whose fields are all optional. The
  method `SocketNotificationReceived` runs the handler's statements in order
  (build the argument, reassign `url`, fetch, send) and is proved equal to
  those functions. The service call is a function parameter `fetch`. The
  broadcast is the returned sequence of notifications.
- `AsWritten`: the file and its handler as written, with the non-async
  `await`, the unbound names and the promise left un-awaited, for the
  findings below.

The relay modelled in `StatusRelay` is the one the code evidently intends:
exactly one notification per ping. Where the source departs from that, the
departure is recorded under "## Findings" and modelled in `AsWritten`:

- The failing path has no `return` after its send (node_helper.js:48-52).
  `AsWritten.Handle` keeps that fall-through. `StatusRelay` stops after the
  error.
- The source sends only `identifier`, `players` and `latency`
  (node_helper.js:62-66), and the model follows it. The other fields of the
  body are read and dropped. The `online` flag is never checked, so a body
  without it still yields an update. The port is not range-checked.
- The elapsed time is an input, `latency`. The source's `timeSec` is bound
  nowhere, and its `startTime` (node_helper.js:41) reads the clock.
- An ok body without `players` yields an update whose `players` is absent.
  As written, such a body throws at node_helper.js:55.
- A rejected fetch yields a MINECRAFT_ERROR with the classifier's sentence
  for its fault. As written, the rejection escapes the handler at
  node_helper.js:47.

## Model

| member | source | states |
|---|---|---|
| `ErrorText.Classify` | node_helper.js:82-95 | every fault yields a sentence; for the six known codes it is non-empty; for any other code, or none, it is the fault's own message unchanged |
| `ErrorText.FixedSentences` | node_helper.js:84-87 | ETIMEDOUT yields exactly "Timed-out contacting Minecraft server" and ECONNRESET exactly "Minecraft server closed the connection", whatever the address, port and message |
| `ErrorText.TemplatedSentences` | node_helper.js:85-89 | ENOTFOUND, EHOSTUNREACH, ENETUNREACH and ECONNREFUSED yield their templates with the address (and for ECONNREFUSED the port) as concatenation prints them, `undefined` included |
| `ErrorText.AddressReadBack` | node_helper.js:85-89 | in each of the four sentences that name the address, the address text sits between the template's fixed parts (for ECONNREFUSED: before the last colon, with the port text after it), so it can be read back |
| `ErrorText.PortMattersOnlyWhenRefused` | node_helper.js:83-94 | changing the port changes the sentence if and only if the code is ECONNREFUSED and the port really differs |
| `ErrorText.AddressMattersOnlyWhenNamed` | node_helper.js:83-94 | changing the address changes the sentence if and only if the code is one of the four that name it and the printed address differs |
| `ErrorText.MessageMattersOnlyWhenUnknown` | node_helper.js:83-94 | changing the fault's message changes the sentence if and only if the code is not one of the six known codes |
| `JsText.NumberToString` | node_helper.js:40 | the port prints as a non-empty string of decimal digits that starts with '0' only for zero, which is "0" |
| `JsText.NumberToStringRoundTrip` | node_helper.js:40 | the printed port reads back, as a decimal number, as the port |
| `JsText.NumberToStringInjective` | node_helper.js:40 | two ports print alike if and only if they are equal |
| `JsText.ShowNumberInjective` | node_helper.js:86 | two fault ports, undefined included, print alike if and only if they are equal |
| `JsText.LastIndexOf` | node_helper.js:40 | the helper that `ParseArg` and `ArgRoundTrip` use to read the `hostname:port` of line 40 back: the index found holds the character and none after it does; when none is found the character does not occur |
| `JsText.ShowString` | node_helper.js:85-89 | no contract of its own: prints an address as concatenation does, `"undefined"` when absent; `ErrorText.TemplatedSentences` and `ErrorText.AddressMattersOnlyWhenNamed` state its use |
| `JsText.ShowNumber` | node_helper.js:86 | a present port prints as decimal digits, an absent one as text not starting with a digit; `JsText.ShowNumberInjective` states that distinct ports print differently |
| `StatusRelay.Arg` | node_helper.js:40 | no contract of its own: `hostname + ":" + port`; `StatusRelay.ArgRoundTrip` states that it loses nothing |
| `StatusRelay.IsStrictlyTrue` | node_helper.js:44 | no contract of its own: `bedrock === true`, true only for the boolean true; `StatusRelay.EndpointSelectsVariant` states its effect |
| `StatusRelay.BaseUrl` | node_helper.js:43-46 | no contract of its own: the Bedrock base when `bedrock` is strictly true, the Java base otherwise; `StatusRelay.EndpointSelectsVariant` states it in both directions |
| `StatusRelay.Endpoint` | node_helper.js:40-47 | no contract of its own: the URL fetched; `StatusRelay.EndpointRoundTrip`, `StatusRelay.EndpointInjective` and `StatusRelay.ExampleEndpoint` state what it names |
| `StatusRelay.PlayersOnline` | node_helper.js:55 | no contract of its own: `data.players.online`, absent when either level is absent; `StatusRelay.UpdateCarriesOnlyOnlinePlayers` states its use |
| `StatusRelay.Reply` | node_helper.js:48-66 | no contract of its own: the one notification for a call; `StatusRelay.ErrorCarriesClassifiedFault`, `StatusRelay.ErrorMessageNonEmpty`, `StatusRelay.EmptyMessagePassesThrough` and `StatusRelay.UpdateCarriesOnlyOnlinePlayers` state it |
| `StatusRelay.Receive` | node_helper.js:37-67 | no contract of its own: what one incoming notification broadcasts; `StatusRelay.ExactlyOneReply` and `StatusRelay.IdentifierEchoed` state it, and `StatusRelay.SocketNotificationReceived` is proved equal to it |
| `StatusRelay.ArgRoundTrip` | node_helper.js:40 | hostname and port read back from `hostname:port` by cutting at the last colon, for every hostname, colons included |
| `StatusRelay.EndpointSelectsVariant` | node_helper.js:43-46 | the URL starts with the Bedrock base if and only if `bedrock` is strictly `true`, and with the Java base if and only if it is not (absent, false or any other value) |
| `StatusRelay.EndpointRoundTrip` | node_helper.js:40-47 | the fetched URL reads back as exactly the request's variant, hostname and port |
| `StatusRelay.EndpointInjective` | node_helper.js:40-47 | two requests are sent to the same URL if and only if they agree on variant, hostname and port |
| `StatusRelay.SocketNotificationReceived` | node_helper.js:37-67 | the imperative handler fetches exactly the endpoint, once per ping and never otherwise, and sends exactly the notifications of `Receive` |
| `StatusRelay.ExactlyOneReply` | node_helper.js:38-66 | a ping yields exactly one notification and anything else none; it is an error if and only if the call failed (the fetch was rejected or the response is not ok) |
| `StatusRelay.IdentifierEchoed` | node_helper.js:49-63 | every notification sent carries the request's identifier unchanged, for any string |
| `StatusRelay.ErrorCarriesClassifiedFault` | node_helper.js:47-52 | a failed call, rejected or answered not ok, yields MINECRAFT_ERROR with the classifier's sentence for its fault, whatever the body |
| `StatusRelay.ErrorMessageNonEmpty` | node_helper.js:48-52 | a failed call's message is non-empty when the fault's code is one of the six, or its own message is non-empty |
| `StatusRelay.EmptyMessagePassesThrough` | node_helper.js:91-93 | a failed call whose fault has an unknown code and an empty message yields MINECRAFT_ERROR with the empty message |
| `StatusRelay.UpdateCarriesOnlyOnlinePlayers` | node_helper.js:53-66 | a call that did not fail yields MINECRAFT_UPDATE with `players.online` and the latency; two bodies give the same update if and only if they agree on `players.online` |
| `StatusRelay.ExampleEndpoint` | node_helper.js:40-47 | the Java-edition request for play.example.com port 25565 is fetched from `https://api.mcsrvstat.us/3/play.example.com:25565` |
| `StatusRelay.JavaPingScenario` | node_helper.js:37-66 | that request, answered successfully with three players online, yields exactly `MINECRAFT_UPDATE {identifier: "abc", players: 3}` |
| `StatusRelay.TimeoutScenario` | node_helper.js:47-52 | that request, failing with an ETIMEDOUT fault, yields exactly `MINECRAFT_ERROR {identifier: "abc", message: "Timed-out contacting Minecraft server"}` |
| `AsWritten.Load` | node_helper.js:37-47 | loading the file throws a SyntaxError if and only if the handler holding the `await` of line 47 is not async |
| `AsWritten.FileDoesNotParse` | node_helper.js:37-47 | as written the handler is not async, so the file throws a SyntaxError on `await` and nothing in it runs |
| `AsWritten.Handle` | node_helper.js:37-67 | no contract of its own: the handler statement by statement, taken to be async; `AsWritten.RejectionEscapes`, `AsWritten.NotOkPathThrows`, `AsWritten.OkPathThrows`, `AsWritten.AwaitedOkPathStillThrows` and `AsWritten.NoPingIsAnswered` state where it ends |
| `AsWritten.RejectionEscapes` | node_helper.js:47 | as written, a rejected fetch sends nothing and its fault escapes the handler uncaught at line 47 |
| `AsWritten.ErrorPayload` | node_helper.js:49-52 | building the error payload as written always throws a ReferenceError on `err` |
| `AsWritten.PlayersOnlineOf` | node_helper.js:55 | reading `data.players.online` throws if and only if the body is an un-awaited promise or lacks `players` |
| `AsWritten.MotdCleanOf` | node_helper.js:58 | reading `data.motd.clean` throws if and only if the body is an un-awaited promise or lacks `motd` |
| `AsWritten.UpdatePayload` | node_helper.js:62-66 | building the update payload as written always throws a ReferenceError on `timeSec` |
| `AsWritten.NotOkPathThrows` | node_helper.js:48-52 | as written, an HTTP response that is not ok sends nothing and ends in a ReferenceError on `err` |
| `AsWritten.OkPathThrows` | node_helper.js:53-55 | as written, an ok HTTP response sends nothing and ends in a TypeError at `data.players.online` |
| `AsWritten.AwaitedOkPathStillThrows` | node_helper.js:53-66 | with the body awaited, an ok HTTP response still sends nothing: it throws a TypeError when `players` or `motd` is missing, and otherwise a ReferenceError on `timeSec` |
| `AsWritten.NoPingIsAnswered` | node_helper.js:37-67 | as written no ping is ever answered, while `StatusRelay.Receive` answers every ping exactly once |

## Left out

- The `fetch` call and its `await` (node_helper.js:47) are network I/O. The service is the parameter `fetch: string -> Response`, so the response is a function of the URL alone.
- `StatusRelay.Reply`: an unknown code with an empty message gives an empty sentence, because the classifier's `default` branch (node_helper.js:91-93) passes the message through unchanged. `StatusRelay.EmptyMessagePassesThrough` states this case, so a failed call is not promised a non-empty message.
- JSON parsing of the body (node_helper.js:53) is left out. The body is the already-parsed `StatusData`, every field optional.
- The notification bus (`NodeHelper.create`, `sendSocketNotification`, node_helper.js:9-12, 49, 62) is host-framework plumbing. The model returns the notifications sent as a sequence.
- The clock (`new Date()`, node_helper.js:41) is left out. The latency is an opaque input.
- `start` (node_helper.js:15-17) only logs to the console.
- The fields read but never sent (node_helper.js:57-61) appear only as optional fields of `StatusData`. `UpdateCarriesOnlyOnlinePlayers` states that they are absent from the update.
- Concurrency between requests in flight is left out. The source coordinates none, and the model handles one request per call.
- Beyond `AsWritten.Load`, parsing is not modelled. `AsWritten.Handle` takes the handler to be `async`, and `StatusRelay` models the intended relay.
- Ports and error ports are non-negative integers. JavaScript prints a number of 10^21 or more in exponent form, and a port given as a string, a fraction or a negative number prints differently; none of these is modelled.
- A non-string `errno` (a number, say) is modelled as a missing one. The `switch` compares strictly against strings, so either falls to the default case. The fault's `message` is always a string, as it is on an `Error` object.
- `identifier` and `hostname` are strings. The source passes an identifier of any JavaScript type through unchanged, and that is not modelled.

## Findings

| source | as written | input that shows it | evidently intended | confidence | as-written member | corrected member |
|---|---|---|---|---|---|---|
| node_helper.js:37-47 | the `await` of line 47 sits in a function not declared `async`, so loading the file throws a SyntaxError and nothing in it runs | the file as it stands | declare the handler `async` | high (not executed) | `AsWritten.FileDoesNotParse` | `StatusRelay.SocketNotificationReceived` |
| node_helper.js:47 | nothing catches a rejected fetch, so a time-out, a DNS failure or a refused connection escapes the handler without any MINECRAFT_ERROR; these are the very faults the classifier's codes name | a ping whose fetch is rejected with ETIMEDOUT | classify the rejection's fault and send one MINECRAFT_ERROR | high (not executed) | `AsWritten.RejectionEscapes` | `StatusRelay.ErrorCarriesClassifiedFault` |
| node_helper.js:48-52 | the error payload's message is `minecraftError2text(err)`, but no `err` is bound, so building the payload throws a ReferenceError and no MINECRAFT_ERROR is sent | any ping whose HTTP response is not ok | classify the failed call's fault and send one MINECRAFT_ERROR | high (not executed) | `AsWritten.NotOkPathThrows` | `StatusRelay.ErrorCarriesClassifiedFault` |
| node_helper.js:53-55 | `response.json()` is not awaited, so `data` is a promise, `data.players` is undefined and line 55 throws a TypeError | any ping whose HTTP response is ok | await the body and send `players.online` | high (not executed) | `AsWritten.OkPathThrows` | `StatusRelay.UpdateCarriesOnlyOnlinePlayers` |
| node_helper.js:62-66 | the update payload's latency is `timeSec`, which is bound nowhere, so even with the body awaited no MINECRAFT_UPDATE is sent | any ping answered ok with `players` and `motd` present | send the elapsed time since `startTime` | high (not executed) | `AsWritten.AwaitedOkPathStillThrows` | `StatusRelay.UpdateCarriesOnlyOnlinePlayers` |
| node_helper.js:55-58 | `data.players.online` and `data.motd.clean` throw when the body lacks `players` or `motd`, as it does for an offline server | an ok response whose body has no `players` | still send one MINECRAFT_UPDATE, as the comment at line 54 anticipates | medium (not executed) | `AsWritten.PlayersOnlineOf` | `StatusRelay.ExactlyOneReply` |
