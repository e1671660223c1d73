# MCP demo server (Kotlin) — a Dafny model of its own logic

The Kotlin demo server registers a prompt, two tools and a resource on an MCP
SDK server and exposes it over standard I/O, two SSE-over-HTTP variants or
MQTT. Almost all of it is glue around the SDK, Ktor and an MQTT client. This
project models the three pieces of logic the repository writes itself:

- **Command-line transport selection** (`main`, module `Cli`). The first
  argument picks the transport. It defaults to `--stdio`. The second
  argument is the port, read with Kotlin's `toIntOrNull` and falling back to
  3001, or the MQTT client id, falling back to `mcp-server-demo-kotlin`. Any
  other command is a fatal startup error. Module `Decimal` models
  `toIntOrNull` in radix 10 and its inverse, the decimal rendering of an `Int`.
- **The session registry and `/message` routing** of the plain-configuration
  SSE server (module `Sessions`). Each open `/sse` stream registers its
  session under its transport's session id. The close callback removes it. A
  POST without `sessionId` gets 400 (Bad Request, section 15.5.1 of RFC 9110).
  A POST with an unknown id, or whose session's transport is not an SSE
  transport, gets 404 (Not Found, section 15.5.5 of RFC 9110). Any other POST
  is handed to that session's transport. The concurrent map is modelled as a
  sequence of pure transitions over `map<string, ServerSession>`, because
  each operation is one atomic map call. A history of events is replayed by
  `Sessions.Run`.
- **The handlers `configureServer` registers** (modules `Handlers` and
  `Catalog`). These are the calculator with its argument checks and operator
  dispatch, the light-brightness stub, the `Kotlin Developer` prompt and the
  placeholder resource, plus the descriptor table that names them.

Behaviours outside Dafny are parameters. `toDoubleOrNull` is a function
`parse: string -> Option<real>`. The rendering of a `Double` in "The result
is: …" is a function `format: real -> string`. Session ids minted by the SDK
are inputs to `Sessions.OpenStream`. Calculator operands are `real`.

Where the documentation and the code disagree, the model follows the code:

- The doc comment of `main` (main.kt:10) calls `--sse-server-ktor` the
  default. The code (main.kt:16) defaults to `--stdio`.
- `main` passes only the client id to the MQTT entry point (main.kt:32).
  That entry point also declares a server name (server.kt:275). The MQTT
  choice here carries only the client id.
- The light tool's schema marks `value` as required and describes a range of
  0 to 100 or `last_value`. The handler validates nothing. A missing value
  is echoed as `null` (`Handlers.LightAcceptsMissingValue`).
- The 404 branch also covers a registered session whose transport is not an
  SSE transport (`as? SseServerTransport`).

A collision on `OpenStream` overwrites the existing entry, as Kotlin's
`map[k] = v` does.

## Model

| member | source | states |
|---|---|---|
| Decimal.ParseInt | src/main/kotlin/io/modelcontextprotocol/sample/server/main.kt:21 | `toIntOrNull` accepts only an optional sign followed by digits, every accepted value is a 32-bit `Int`, and a negative value needs a leading `-` |
| Decimal.ParseIntOfDecimal | src/main/kotlin/io/modelcontextprotocol/sample/server/main.kt:21 | every 32-bit `Int` written in decimal is read back as itself, so every port Kotlin can hold is reachable |
| Decimal.ParseIntPlusSign | src/main/kotlin/io/modelcontextprotocol/sample/server/main.kt:26 | a leading `+` is accepted and does not change the value |
| Decimal.ParseIntLeadingZeros | src/main/kotlin/io/modelcontextprotocol/sample/server/main.kt:21 | zeros after an optional sign are accepted and ignored, so "08080" reads as 8080 and "-0" as 0; non-canonical port arguments are read with their value rather than falling back to 3001 |
| Decimal.ParseIntRejectsOutOfRange | src/main/kotlin/io/modelcontextprotocol/sample/server/main.kt:26 | every numeral whose value lies outside the `Int` range is rejected, with or without a sign and leading zeros, so such a port argument falls back to 3001 instead of being saturated |
| Decimal.ParseIntRejects | src/main/kotlin/io/modelcontextprotocol/sample/server/main.kt:21 | the empty string, a lone sign, and values one past either end of the `Int` range are rejected, so the port falls back to the default |
| Cli.PortArg | src/main/kotlin/io/modelcontextprotocol/sample/server/main.kt:21 | the port is the parsed second argument when it is an `Int`, otherwise 3001, and is always a 32-bit `Int` |
| Cli.Select | src/main/kotlin/io/modelcontextprotocol/sample/server/main.kt:15-38 | the selection is an error exactly when the command is not one of the four flags, and the error names that command; `--stdio` selects `Stdio`, `--sse-server-ktor` the Ktor plugin, `--sse-server` the plain SSE server and `--mqtt` MQTT, each exactly for its flag and whatever the other arguments are |
| Cli.ErrorMessage | src/main/kotlin/io/modelcontextprotocol/sample/server/main.kt:36 | the startup error's message is "Unknown command: " followed by exactly the command |
| Cli.SelectErrorNamesCommand | src/main/kotlin/io/modelcontextprotocol/sample/server/main.kt:35-37 | an unknown command is a startup error whose message reads back as that command after "Unknown command: " |
| Cli.NoArgumentsSelectsStdio | src/main/kotlin/io/modelcontextprotocol/sample/server/main.kt:16 | an empty command line selects standard I/O, not the Ktor SSE plugin the doc comment names |
| Cli.SsePortSelection | src/main/kotlin/io/modelcontextprotocol/sample/server/main.kt:20-28 | `--sse-server-ktor` always selects the Ktor plugin and `--sse-server` the plain SSE server; both use the parsed second argument when it is an `Int` and port 3001 when it is missing or is not |
| Cli.MqttClientIdSelection | src/main/kotlin/io/modelcontextprotocol/sample/server/main.kt:30-33 | `--mqtt` uses the second argument verbatim, even when empty, and `mcp-server-demo-kotlin` only when it is missing |
| Cli.SelectIgnoresTrailingArgs | src/main/kotlin/io/modelcontextprotocol/sample/server/main.kt:16-31 | appending arguments after the second never changes the selection |
| Cli.SelectCommandLine | src/main/kotlin/io/modelcontextprotocol/sample/server/main.kt:17-33 | every choice with an `Int` port is produced by its canonical command line, which inverts the selection |
| Cli.SelectableIsReachable | src/main/kotlin/io/modelcontextprotocol/sample/server/main.kt:17-37 | the choices some command line selects are exactly those whose port is a 32-bit `Int` |
| Sessions.OpenStream | src/main/kotlin/io/modelcontextprotocol/sample/server/server.kt:182-185 | after opening, the id looks up a session on an SSE transport with that id and endpoint `/message`; every other id looks up what it did before |
| Sessions.CloseStream | src/main/kotlin/io/modelcontextprotocol/sample/server/server.kt:187-190 | after closing, the id is not found, every other entry is unchanged, and closing an absent id leaves the registry as it was |
| Sessions.RoutePost | src/main/kotlin/io/modelcontextprotocol/sample/server/server.kt:192-206 | no `sessionId` gives 400 with "Missing sessionId parameter"; an unknown id or a non-SSE transport gives 404 with "Session not found"; a forward goes to the transport of the looked-up session; in a well-formed registry a POST is forwarded exactly when its id is registered, to a transport with that id that no other entry holds |
| Sessions.Step | src/main/kotlin/io/modelcontextprotocol/sample/server/server.kt:182-206 | a POST leaves the registry unchanged and yields the routing outcome; lifecycle events yield no outcome; every event keeps the registry well formed |
| Sessions.RunTracksOpenStreams | src/main/kotlin/io/modelcontextprotocol/sample/server/server.kt:174-190 | after any history of opens, closes and POSTs, an id is registered exactly when its last lifecycle event was an open, and every entry is bound to its own SSE transport |
| Sessions.PostAfterHistory | src/main/kotlin/io/modelcontextprotocol/sample/server/server.kt:182-205 | after any history, a POST for an id is forwarded exactly when that id's stream is open, and then to that stream's own transport |
| Sessions.CloseStreamIdempotent | src/main/kotlin/io/modelcontextprotocol/sample/server/server.kt:189 | removing an id twice is the same as removing it once |
| Sessions.OpenThenCloseRestores | src/main/kotlin/io/modelcontextprotocol/sample/server/server.kt:185-189 | opening and then closing a fresh id restores the registry exactly |
| Handlers.ErrorMessagesDistinguish | src/main/kotlin/io/modelcontextprotocol/sample/server/server.kt:115-127 | the messages of the invalid-argument, division-by-zero and unsupported-operator exceptions differ pairwise, and each determines its argument name or operator |
| Handlers.ErrorMessage | src/main/kotlin/io/modelcontextprotocol/sample/server/server.kt:115-127 | each argument failure's message is "Invalid or missing argument: " and the argument name, division by zero's is "Division by zero", and an unsupported operator's is "Don't support Operator: " and the operator; the object-or-array failure has no message of the server's own |
| Handlers.ExceptionClassOf | src/main/kotlin/io/modelcontextprotocol/sample/server/server.kt:115-127 | division by zero is an `ArithmeticException`, and every other tool failure is an `IllegalArgumentException` |
| Handlers.ArgumentContent | src/main/kotlin/io/modelcontextprotocol/sample/server/server.kt:114-118 | an argument's text is absent exactly when the arguments or the key are absent, is an error exactly when the value is an object or array, and is otherwise the primitive's content |
| Handlers.NumberArg | src/main/kotlin/io/modelcontextprotocol/sample/server/server.kt:114-117 | a numeric argument succeeds exactly when present, primitive and parseable, with the parsed value; an object or array fails with `NotAPrimitive`, and a missing or unparseable value with the invalid-argument failure naming it |
| Handlers.OperatorArg | src/main/kotlin/io/modelcontextprotocol/sample/server/server.kt:118-119 | the operator is the first character of `op`; an object or array fails with `NotAPrimitive`, and an absent or empty `op` with the invalid-argument failure |
| Handlers.Apply | src/main/kotlin/io/modelcontextprotocol/sample/server/server.kt:122-128 | `+` and `*` give the sum and product; `-` and `/` give a value that the inverse operation maps back to `x`; `/` by zero is `DivisionByZero`; any other character is `UnsupportedOperator` |
| Handlers.Calculator | src/main/kotlin/io/modelcontextprotocol/sample/server/server.kt:113-131 | the tool fails exactly when the calculation does, with the same error, and otherwise replies with one text that reads back as "The result is: " and the rendered value |
| Handlers.Calculate | src/main/kotlin/io/modelcontextprotocol/sample/server/server.kt:114-128 | num1, then num2, then op are checked and the first failing argument is reported; the calculation succeeds exactly when both operands parse, `op` is non-empty and starts with one of `+-*/`, and the divisor of `/` is non-zero, with the arithmetic result; the only arithmetic exception is division by zero, and any other first character is the unsupported-operator failure naming it; `/` with a zero divisor always gives the division-by-zero failure, whatever the first operand |
| Handlers.OnlyFirstCharOfOp | src/main/kotlin/io/modelcontextprotocol/sample/server/server.kt:118 | text after the first character of `op` never changes the result |
| Handlers.CalculatorExamples | src/main/kotlin/io/modelcontextprotocol/sample/server/server.kt:113-128 | 2 + 3 is 5, 2 / 0 is division by zero, and `%` is an unsupported operator |
| Handlers.SetLightBrightness | src/main/kotlin/io/modelcontextprotocol/sample/server/server.kt:147-152 | the light stub fails only when `value` is an object or array, and otherwise replies with exactly one text |
| Handlers.LightEchoesValue | src/main/kotlin/io/modelcontextprotocol/sample/server/server.kt:148-151 | the light stub's reply reads back as exactly the value's text between "Light brightness set to: " and "%" |
| Handlers.LightAcceptsMissingValue | src/main/kotlin/io/modelcontextprotocol/sample/server/server.kt:148-151 | a missing value or missing arguments is not an error: the reply is "Light brightness set to: null%" |
| Handlers.KotlinDeveloperPrompt | src/main/kotlin/io/modelcontextprotocol/sample/server/server.kt:78-89 | the prompt returns exactly one message, spoken by the user |
| Handlers.ProjectName | src/main/kotlin/io/modelcontextprotocol/sample/server/server.kt:84 | the project name is present exactly when the arguments are present and contain "Project Name", and is then that argument's value |
| Handlers.PromptRoundTrip | src/main/kotlin/io/modelcontextprotocol/sample/server/server.kt:84-88 | the message reads back as the project name (or `null`) between "Develop a kotlin project named <name>" and "</name>", and the description reads back as the prompt name after "Description for " |
| Handlers.ReadPlaceholder | src/main/kotlin/io/modelcontextprotocol/sample/server/server.kt:161-166 | a read returns exactly one content, carrying the requested uri and MIME type `text/html` |
| Handlers.PlaceholderNamesUri | src/main/kotlin/io/modelcontextprotocol/sample/server/server.kt:164 | the placeholder text reads back as the requested uri after "Placeholder content for ", so distinct uris give distinct results |
| Handlers.ReadSearchResource | src/test/kotlin/SseServerIntegrationTest.kt:57-70 | reading `https://search.com/` gives exactly one content: "Placeholder content for https://search.com/", that uri, `text/html` |
| Catalog.HandlerFor | src/main/kotlin/io/modelcontextprotocol/sample/server/server.kt:93-147 | a handler is registered under a name exactly when a tool descriptor has that name |
| Catalog.CallTool | src/main/kotlin/io/modelcontextprotocol/sample/server/server.kt:93-153 | calling `calculator` runs the calculator, `set_light_brightness` runs the light stub, and any other name runs nothing |
| Catalog.ToolNamesUnique | src/main/kotlin/io/modelcontextprotocol/sample/server/server.kt:94-136 | the two registered tool names are distinct |
| Catalog.CalculatorEnforcesItsSchema | src/main/kotlin/io/modelcontextprotocol/sample/server/server.kt:111-119 | leaving out any argument the calculator's schema requires makes it fail with an argument error, and with the "Invalid or missing argument" failure whenever every supplied value is a JSON primitive |
| Catalog.LightIgnoresItsSchema | src/main/kotlin/io/modelcontextprotocol/sample/server/server.kt:145-151 | the light tool succeeds even without the `value` its schema requires |
| Catalog.RegisteredResourceRead | src/main/kotlin/io/modelcontextprotocol/sample/server/server.kt:156-166 | reading the registered resource gives one placeholder naming its uri, with the MIME type it was registered with |
| Catalog.RegisteredPromptReadsItsArgument | src/main/kotlin/io/modelcontextprotocol/sample/server/server.kt:68-88 | the prompt's single argument is required and is the one its handler reads, and the description names the registered prompt |

## Left out

- Ktor engine setup, SSE framing, CORS installation and banner printing (server.kt:173, 178-180, 219-249): framework configuration and console output with no logic of the repository's own.
- The Ktor-plugin SSE server (`runSseMcpServerUsingKtorPlugin`): its session handling lives in the SDK's `mcp` plugin.
- The stdio and MQTT transports (server.kt:257-297): blocking I/O, coroutines and a foreign MQTT client. Only their selection is modelled.
- SDK internals: `Server`, `createSession`, `handlePostMessage`, JSON-RPC dispatch and listing. A forward is recorded as `Forward(transport)`. Its HTTP response is the SDK's.
- The log line printed on session close (server.kt:188).
- Concurrency of the `ConcurrentMap`: each operation is one atomic call, so the registry is modelled sequentially.
- Decimal.ParseInt: accepts only ASCII digits; the JVM digit lookup behind `toIntOrNull` also accepts other Unicode decimal digits, which the model rejects.
- Handlers.Apply: operands are reals, so IEEE-754 rounding, infinities, NaN and negative zero are not modelled; `toDoubleOrNull` and the rendering of the result are parameters.
- Handlers.ErrorMessage: gives no text for `NotAPrimitive`, whose message comes from the JSON library.
- Handlers.OperatorArg: a Dafny `char` is a Unicode scalar value, while Kotlin's `firstOrNull()` returns a UTF-16 code unit; for an `op` starting with a character outside the Basic Multilingual Plane the source reports its high surrogate and the model the whole character, and Kotlin strings holding lone surrogates are not representable.
- Sessions.OpenStream: one event stands for creating the session, inserting it and registering its close callback; the model assumes the session is created while its stream is still open and that the stream cannot close before the callback is registered, which is timing inside the SDK and Ktor.
- The integration tests' tool `kotlin-sdk-tool` returning "Hello, world!": the server registers no such tool, so those assertions describe an older server.
- The prompt's, tools' and resource's descriptions and the calculator's schema property types: static text with nothing to state.
- The build configuration.
