/** The command-line dispatch of `main`: the first argument picks one of four
    transports, the second supplies its port or MQTT client id. */
module Cli {
  import opened Wrappers
  import opened Decimal

  /** The command used when no argument is given. */
  const DefaultCommand: string := "--stdio"
  /** The port used by both SSE commands when the second argument is absent or not an `Int`. */
  const DefaultPort: int := 3001
  /** The MQTT client id used when the second argument is absent. */
  const DefaultClientId: string := "mcp-server-demo-kotlin"

  const StdioFlag: string := "--stdio"
  const SseKtorFlag: string := "--sse-server-ktor"
  const SsePlainFlag: string := "--sse-server"
  const MqttFlag: string := "--mqtt"

  /** The transport a process runs. */
  datatype TransportChoice =
    | Stdio
    | SseKtorPlugin(port: int)
    | SsePlain(port: int)
    | Mqtt(clientId: string)

  /** The fatal startup error raised for any other first argument. */
  datatype StartupError = UnknownCommand(command: string)

  const UnknownCommandPrefix: string := "Unknown command: "

  /** The text of the `IllegalStateException` raised by `error(...)`: the
      command, after a fixed prefix. */
  function ErrorMessage(e: StartupError): (m: string)
    ensures |m| >= |UnknownCommandPrefix| && m[..|UnknownCommandPrefix|] == UnknownCommandPrefix
    ensures m[|UnknownCommandPrefix|..] == e.command
  {
    UnknownCommandPrefix + e.command
  }

  /** `args.firstOrNull() ?: "--stdio"`. */
  function Command(args: seq<string>): string
  {
    if |args| == 0 then DefaultCommand else args[0]
  }

  /** `args.getOrNull(1)`. */
  function SecondArg(args: seq<string>): Option<string>
  {
    if |args| > 1 then Some(args[1]) else None
  }

  /** `args.getOrNull(1)?.toIntOrNull() ?: 3001`. */
  function PortArg(args: seq<string>): (p: int)
    ensures InInt32(p)
    ensures SecondArg(args).Some? && ParseInt(SecondArg(args).value).Some? ==> p == ParseInt(args[1]).value
    ensures SecondArg(args).None? || ParseInt(SecondArg(args).value).None? ==> p == DefaultPort
  {
    match SecondArg(args)
    case None => DefaultPort
    case Some(a) => ParseInt(a).GetOr(DefaultPort)
  }

  predicate KnownCommand(command: string)
  {
    command == StdioFlag || command == SseKtorFlag || command == SsePlainFlag || command == MqttFlag
  }

  /** The transport selected by a command line, or the startup error. */
  function Select(args: seq<string>): (r: Result<TransportChoice, StartupError>)
    ensures r.Err? <==> !KnownCommand(Command(args))
    ensures r.Err? ==> r.error == UnknownCommand(Command(args))
    ensures r == Ok(Stdio) <==> Command(args) == StdioFlag
    ensures r.Ok? && r.value.SseKtorPlugin? <==> Command(args) == SseKtorFlag
    ensures r.Ok? && r.value.SsePlain? <==> Command(args) == SsePlainFlag
    ensures r.Ok? && r.value.Mqtt? <==> Command(args) == MqttFlag
    ensures r.Ok? && (r.value.SseKtorPlugin? || r.value.SsePlain?) ==> InInt32(r.value.port)
  {
    var command := Command(args);
    if command == StdioFlag then Ok(Stdio)
    else if command == SseKtorFlag then Ok(SseKtorPlugin(PortArg(args)))
    else if command == SsePlainFlag then Ok(SsePlain(PortArg(args)))
    else if command == MqttFlag then Ok(Mqtt(SecondArg(args).GetOr(DefaultClientId)))
    else Err(UnknownCommand(command))
  }

  /** The fatal error of an unknown command reads back as that command. */
  lemma SelectErrorNamesCommand(args: seq<string>)
    requires !KnownCommand(Command(args))
    ensures Select(args).Err?
    ensures ErrorMessage(Select(args).error)[|UnknownCommandPrefix|..] == Command(args)
  {
  }

  /** With no arguments the process serves over standard I/O, not over the
      Ktor SSE plugin. */
  lemma NoArgumentsSelectsStdio()
    ensures Select([]) == Ok(Stdio)
    ensures Select([]) != Ok(SseKtorPlugin(DefaultPort))
  {
  }

  /** Both SSE commands use the parsed second argument when it is an `Int`
      and fall back to port 3001 when it is missing or is not. */
  lemma SsePortSelection(args: seq<string>)
    requires |args| > 0 && (args[0] == SseKtorFlag || args[0] == SsePlainFlag)
    ensures args[0] == SseKtorFlag ==> Select(args) == Ok(SseKtorPlugin(Select(args).value.port))
    ensures args[0] == SsePlainFlag ==> Select(args) == Ok(SsePlain(Select(args).value.port))
    ensures |args| > 1 && ParseInt(args[1]).Some? ==> Select(args).value.port == ParseInt(args[1]).value
    ensures (|args| < 2 || ParseInt(args[1]).None?) ==> Select(args).value.port == DefaultPort
  {
  }

  /** `--mqtt` takes the second argument verbatim as client id, even when it
      is empty, and uses the default id only when it is missing. */
  lemma MqttClientIdSelection(args: seq<string>)
    requires |args| > 0 && args[0] == MqttFlag
    ensures |args| == 1 ==> Select(args) == Ok(Mqtt(DefaultClientId))
    ensures |args| > 1 ==> Select(args) == Ok(Mqtt(args[1]))
  {
  }

  /** Arguments after the second never affect the selection. */
  lemma SelectIgnoresTrailingArgs(args: seq<string>, extra: seq<string>)
    requires |args| >= 2
    ensures Select(args + extra) == Select(args)
  {
    assert Command(args + extra) == Command(args);
    assert SecondArg(args + extra) == SecondArg(args);
  }

  /** A command line that selects `c`. */
  function CommandLine(c: TransportChoice): seq<string>
  {
    match c
    case Stdio => [StdioFlag]
    case SseKtorPlugin(p) => [SseKtorFlag, IntToDecimal(p)]
    case SsePlain(p) => [SsePlainFlag, IntToDecimal(p)]
    case Mqtt(id) => [MqttFlag, id]
  }

  /** A choice `Select` can produce: ports are Kotlin `Int`s. */
  predicate Selectable(c: TransportChoice)
  {
    (c.SseKtorPlugin? || c.SsePlain?) ==> InInt32(c.port)
  }

  /** Every selectable transport is reached by its canonical command line,
      and everything `Select` returns is selectable. */
  lemma SelectCommandLine(c: TransportChoice)
    requires Selectable(c)
    ensures Select(CommandLine(c)) == Ok(c)
  {
    match c
    case Stdio =>
    case SseKtorPlugin(p) => ParseIntOfDecimal(p);
    case SsePlain(p) => ParseIntOfDecimal(p);
    case Mqtt(id) =>
  }

  /** The choices `Select` returns are exactly the selectable ones. */
  lemma SelectableIsReachable(c: TransportChoice)
    ensures Selectable(c) <==> exists args :: Select(args) == Ok(c)
  {
    if Selectable(c) {
      SelectCommandLine(c);
    }
  }
}
