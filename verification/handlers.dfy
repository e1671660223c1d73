/** The handlers `configureServer` registers: the `Kotlin Developer` prompt,
    the `calculator` and `set_light_brightness` tools, and the
    `https://search.com/` resource.  Number parsing (`toDoubleOrNull`) and
    the rendering of a `Double` are parameters; operands are reals. */
module Handlers {
  import opened Wrappers

  // ---------------------------------------------------------------------------
  // Shared pieces

  /** A JSON argument value: a primitive (string, number, boolean or `null`,
      whose `content` is its text, `"null"` for `null`) or an object/array. */
  datatype JsonElement = JsonPrimitive(content: string) | JsonStructured

  /** A tool call's `arguments`, itself nullable. */
  type Arguments = Option<map<string, JsonElement>>

  datatype TextContent = TextContent(text: string)
  datatype CallToolResult = CallToolResult(content: seq<TextContent>)

  /** The exceptions a tool handler throws. */
  datatype ToolError =
    | InvalidArgument(name: string)     // "Invalid or missing argument: <name>"
    | NotAPrimitive(name: string)       // thrown by `jsonPrimitive` on an object or array
    | DivisionByZero                    // "Division by zero"
    | UnsupportedOperator(op: char)     // "Don't support Operator: <op>"

  datatype ExceptionClass = IllegalArgumentException | ArithmeticException

  function ExceptionClassOf(e: ToolError): (c: ExceptionClass)
    ensures c == ArithmeticException <==> e == DivisionByZero
    ensures c == IllegalArgumentException <==> (e.InvalidArgument? || e.NotAPrimitive? || e.UnsupportedOperator?)
  {
    if e.DivisionByZero? then ArithmeticException else IllegalArgumentException
  }

  const InvalidArgumentPrefix: string := "Invalid or missing argument: "
  const DivisionByZeroMessage: string := "Division by zero"
  const UnsupportedOperatorPrefix: string := "Don't support Operator: "

  /** The message of the exception, where the server writes it itself. */
  function ErrorMessage(e: ToolError): (m: Option<string>)
    ensures m.None? <==> e.NotAPrimitive?
    ensures e.InvalidArgument? ==> |m.value| >= |InvalidArgumentPrefix| && m.value[..|InvalidArgumentPrefix|] == InvalidArgumentPrefix
                                   && m.value[|InvalidArgumentPrefix|..] == e.name
    ensures e.DivisionByZero? ==> m == Some("Division by zero")
    ensures e.UnsupportedOperator? ==> |m.value| >= |UnsupportedOperatorPrefix| && m.value[..|UnsupportedOperatorPrefix|] == UnsupportedOperatorPrefix
                                       && m.value[|UnsupportedOperatorPrefix|..] == [e.op]
  {
    match e
    case InvalidArgument(name) => Some(InvalidArgumentPrefix + name)
    case NotAPrimitive(_) => None
    case DivisionByZero => Some(DivisionByZeroMessage)
    case UnsupportedOperator(op) => Some(UnsupportedOperatorPrefix + [op])
  }

  /** A caller can tell every failure the server describes apart from every
      other by its message alone. */
  lemma ErrorMessagesDistinguish(e1: ToolError, e2: ToolError)
    requires ErrorMessage(e1).Some? && ErrorMessage(e2).Some?
    requires ErrorMessage(e1) == ErrorMessage(e2)
    ensures e1 == e2
  {
    var m := ErrorMessage(e1).value;
    match e1 {
      case InvalidArgument(a) =>
        assert m[0] == 'I';
        match e2 {
          case InvalidArgument(b) => assert a == m[|InvalidArgumentPrefix|..] == b;
          case DivisionByZero => assert false;
          case UnsupportedOperator(_) => assert false;
        }
      case DivisionByZero =>
        assert m[1] == 'i';
        match e2 {
          case InvalidArgument(_) => assert false;
          case DivisionByZero =>
          case UnsupportedOperator(_) => assert false;
        }
      case UnsupportedOperator(p) =>
        assert m[1] == 'o' && m[0] == 'D';
        match e2 {
          case InvalidArgument(_) => assert false;
          case DivisionByZero => assert false;
          case UnsupportedOperator(q) => assert p == m[|UnsupportedOperatorPrefix|] == q;
        }
    }
  }

  /** `arguments?.get(name)?.jsonPrimitive?.content`: absent when the
      arguments or the key are, an error when the value is an object or array. */
  function ArgumentContent(args: Arguments, name: string): (r: Result<Option<string>, ToolError>)
    ensures r.Err? <==> args.Some? && name in args.value && args.value[name].JsonStructured?
    ensures r.Err? ==> r.error == NotAPrimitive(name)
    ensures r == Ok(None) <==> args.None? || name !in args.value
    ensures r.Ok? && r.value.Some? ==> args.Some? && name in args.value && args.value[name] == JsonPrimitive(r.value.value)
  {
    match args
    case None => Ok(None)
    case Some(m) =>
      if name !in m then Ok(None)
      else match m[name]
        case JsonPrimitive(c) => Ok(Some(c))
        case JsonStructured => Err(NotAPrimitive(name))
  }

  /** A Kotlin string template's rendering of a nullable string. */
  function Interpolate(s: Option<string>): string
  {
    s.GetOr("null")
  }

  /** `s` with `prefix` and `suffix` stripped, if it has both. */
  function StripAffixes(prefix: string, suffix: string, s: string): (r: Option<string>)
    ensures r.Some? ==> s == prefix + r.value + suffix
  {
    if |s| >= |prefix| + |suffix| && s[..|prefix|] == prefix && s[|s| - |suffix|..] == suffix
    then
      var r := s[|prefix|..|s| - |suffix|];
      assert s == s[..|prefix|] + r + s[|s| - |suffix|..];
      Some(r)
    else None
  }

  lemma StripAffixesInverts(prefix: string, x: string, suffix: string)
    ensures StripAffixes(prefix, suffix, prefix + x + suffix) == Some(x)
  {
    var s := prefix + x + suffix;
    assert s[..|prefix|] == prefix;
    assert s[|s| - |suffix|..] == suffix;
    assert s[|prefix|..|s| - |suffix|] == x;
  }

  /** The empty-suffix case: a prefix followed by `x` strips back to `x`. */
  lemma StripPrefixInverts(prefix: string, x: string)
    ensures StripAffixes(prefix, "", prefix + x) == Some(x)
  {
    StripAffixesInverts(prefix, x, "");
    assert prefix + x + "" == prefix + x;
  }

  // ---------------------------------------------------------------------------
  // The calculator tool

  /** A numeric argument: absent or unparseable is the invalid-argument failure. */
  function NumberArg(args: Arguments, name: string, parse: string -> Option<real>): (r: Result<real, ToolError>)
    ensures r.Ok? <==> ArgumentContent(args, name).Ok? && ArgumentContent(args, name).value.Some?
                       && parse(ArgumentContent(args, name).value.value).Some?
    ensures r.Ok? ==> r.value == parse(ArgumentContent(args, name).value.value).value
    ensures r.Err? ==> r.error == InvalidArgument(name) || r.error == NotAPrimitive(name)
    ensures ArgumentContent(args, name).Err? ==> r == Err(NotAPrimitive(name))
    ensures ArgumentContent(args, name).Ok? && r.Err? ==> r.error == InvalidArgument(name)
  {
    match ArgumentContent(args, name)
    case Err(e) => Err(e)
    case Ok(None) => Err(InvalidArgument(name))
    case Ok(Some(c)) =>
      match parse(c)
      case None => Err(InvalidArgument(name))
      case Some(x) => Ok(x)
  }

  /** The operator argument: the first character of its content; absent or
      empty is the invalid-argument failure. */
  function OperatorArg(args: Arguments): (r: Result<char, ToolError>)
    ensures r.Ok? <==> ArgumentContent(args, "op").Ok? && ArgumentContent(args, "op").value.Some?
                       && |ArgumentContent(args, "op").value.value| > 0
    ensures r.Ok? ==> r.value == ArgumentContent(args, "op").value.value[0]
    ensures r.Err? ==> r.error == InvalidArgument("op") || r.error == NotAPrimitive("op")
    ensures ArgumentContent(args, "op").Err? ==> r == Err(NotAPrimitive("op"))
    ensures ArgumentContent(args, "op").Ok? && r.Err? ==> r.error == InvalidArgument("op")
  {
    match ArgumentContent(args, "op")
    case Err(e) => Err(e)
    case Ok(None) => Err(InvalidArgument("op"))
    case Ok(Some(c)) => if |c| == 0 then Err(InvalidArgument("op")) else Ok(c[0])
  }

  /** The arithmetic the operator selects. */
  function Apply(op: char, x: real, y: real): (r: Result<real, ToolError>)
    ensures r.Err? <==> (op == '/' && y == 0.0) || (op != '+' && op != '-' && op != '*' && op != '/')
    ensures op == '+' ==> r == Ok(x + y)
    ensures op == '-' ==> r.Ok? && r.value + y == x
    ensures op == '*' ==> r == Ok(x * y)
    ensures op == '/' && y != 0.0 ==> r.Ok? && r.value * y == x
    ensures op == '/' && y == 0.0 ==> r == Err(DivisionByZero)
    ensures op != '+' && op != '-' && op != '*' && op != '/' ==> r == Err(UnsupportedOperator(op))
  {
    match op
    case '+' => Ok(x + y)
    case '-' => Ok(x - y)
    case '*' => Ok(x * y)
    case '/' => if y == 0.0 then Err(DivisionByZero) else Ok(x / y)
    case _ => Err(UnsupportedOperator(op))
  }

  /** The calculator's value: `num1`, then `num2`, then `op` are read, the
      first that fails is reported, then the operator is applied.  It
      succeeds exactly when both operands parse, `op` is non-empty and its
      first character is `+`, `-`, `*`, or `/` with a non-zero divisor. */
  function Calculate(args: Arguments, parse: string -> Option<real>): (r: Result<real, ToolError>)
    ensures NumberArg(args, "num1", parse).Err? ==> r == Err(NumberArg(args, "num1", parse).error)
    ensures NumberArg(args, "num1", parse).Ok? && NumberArg(args, "num2", parse).Err? ==>
              r == Err(NumberArg(args, "num2", parse).error)
    ensures NumberArg(args, "num1", parse).Ok? && NumberArg(args, "num2", parse).Ok? && OperatorArg(args).Err? ==>
              r == Err(OperatorArg(args).error)
    ensures r.Ok? <==>
              NumberArg(args, "num1", parse).Ok? && NumberArg(args, "num2", parse).Ok? && OperatorArg(args).Ok?
              && OperatorArg(args).value in "+-*/"
              && !(OperatorArg(args).value == '/' && NumberArg(args, "num2", parse).value == 0.0)
    ensures r.Ok? ==>
              var x := NumberArg(args, "num1", parse).value;
              var y := NumberArg(args, "num2", parse).value;
              var op := OperatorArg(args).value;
              (op == '+' ==> r.value == x + y) && (op == '-' ==> r.value + y == x)
              && (op == '*' ==> r.value == x * y) && (op == '/' ==> r.value * y == x)
    ensures NumberArg(args, "num1", parse).Ok? && NumberArg(args, "num2", parse) == Ok(0.0) && OperatorArg(args) == Ok('/') ==>
              r == Err(DivisionByZero)
    ensures r.Err? && ExceptionClassOf(r.error) == ArithmeticException ==>
              r.error == DivisionByZero && OperatorArg(args) == Ok('/') && NumberArg(args, "num2", parse) == Ok(0.0)
    ensures (NumberArg(args, "num1", parse).Ok? && NumberArg(args, "num2", parse).Ok? && OperatorArg(args).Ok?
             && OperatorArg(args).value !in "+-*/")
              ==> r == Err(UnsupportedOperator(OperatorArg(args).value))
  {
    match NumberArg(args, "num1", parse)
    case Err(e) => Err(e)
    case Ok(x) =>
      match NumberArg(args, "num2", parse)
      case Err(e) => Err(e)
      case Ok(y) =>
        match OperatorArg(args)
        case Err(e) => Err(e)
        case Ok(op) => Apply(op, x, y)
  }

  /** The calculator tool's reply: "The result is: " and the rendered value. */
  function Calculator(args: Arguments, parse: string -> Option<real>, format: real -> string): (r: Result<CallToolResult, ToolError>)
    ensures r.Ok? <==> Calculate(args, parse).Ok?
    ensures r.Err? ==> r.error == Calculate(args, parse).error
    ensures r.Ok? ==> |r.value.content| == 1
                      && StripAffixes("The result is: ", "", r.value.content[0].text) == Some(format(Calculate(args, parse).value))
  {
    match Calculate(args, parse)
    case Err(e) => Err(e)
    case Ok(v) =>
      StripPrefixInverts("The result is: ", format(v));
      Ok(CallToolResult([TextContent("The result is: " + format(v))]))
  }

  /** Only the first character of `op` matters: any text after it is ignored. */
  lemma OnlyFirstCharOfOp(m: map<string, JsonElement>, c: char, rest: string, parse: string -> Option<real>)
    ensures Calculate(Some(m["op" := JsonPrimitive([c] + rest)]), parse)
         == Calculate(Some(m["op" := JsonPrimitive([c])]), parse)
  {
    var a1 := Some(m["op" := JsonPrimitive([c] + rest)]);
    var a2 := Some(m["op" := JsonPrimitive([c])]);
    assert NumberArg(a1, "num1", parse) == NumberArg(a2, "num1", parse);
    assert NumberArg(a1, "num2", parse) == NumberArg(a2, "num2", parse);
    assert OperatorArg(a1) == OperatorArg(a2) == Ok(c);
  }

  /** The three arguments, each given as text. */
  function CalculatorArgs(num1: string, num2: string, op: string): Arguments
  {
    Some(map["num1" := JsonPrimitive(num1), "num2" := JsonPrimitive(num2), "op" := JsonPrimitive(op)])
  }

  /** `2 + 3` is `5`, `2 / 0` is the division-by-zero failure and `2 % 3` the
      unsupported-operator failure, whatever parser reads "2", "3" and "0"
      as those numbers. */
  lemma CalculatorExamples(parse: string -> Option<real>)
    requires parse("2") == Some(2.0) && parse("3") == Some(3.0) && parse("0") == Some(0.0)
    ensures Calculate(CalculatorArgs("2", "3", "+"), parse) == Ok(5.0)
    ensures Calculate(CalculatorArgs("2", "0", "/"), parse) == Err(DivisionByZero)
    ensures Calculate(CalculatorArgs("2", "3", "%"), parse) == Err(UnsupportedOperator('%'))
  {
    var a := CalculatorArgs("2", "3", "+");
    assert NumberArg(a, "num1", parse) == Ok(2.0);
    assert NumberArg(a, "num2", parse) == Ok(3.0);
    var b := CalculatorArgs("2", "0", "/");
    assert NumberArg(b, "num1", parse) == Ok(2.0);
    assert NumberArg(b, "num2", parse) == Ok(0.0);
    var c := CalculatorArgs("2", "3", "%");
    assert NumberArg(c, "num1", parse) == Ok(2.0);
    assert NumberArg(c, "num2", parse) == Ok(3.0);
  }

  // ---------------------------------------------------------------------------
  // The light stub

  const LightPrefix: string := "Light brightness set to: "
  const LightSuffix: string := "%"

  /** `set_light_brightness`: echoes the value's text, without validating it;
      a missing value is echoed as `null`. */
  function SetLightBrightness(args: Arguments): (r: Result<CallToolResult, ToolError>)
    ensures r.Err? <==> ArgumentContent(args, "value").Err?
    ensures r.Err? ==> r.error == NotAPrimitive("value")
    ensures r.Ok? ==> |r.value.content| == 1
  {
    match ArgumentContent(args, "value")
    case Err(e) => Err(e)
    case Ok(v) => Ok(CallToolResult([TextContent(LightPrefix + Interpolate(v) + LightSuffix)]))
  }

  /** The reply of the light stub carries back exactly the value it was given. */
  lemma LightEchoesValue(args: Arguments)
    requires SetLightBrightness(args).Ok?
    ensures StripAffixes(LightPrefix, LightSuffix, SetLightBrightness(args).value.content[0].text)
         == Some(Interpolate(ArgumentContent(args, "value").value))
  {
    StripAffixesInverts(LightPrefix, Interpolate(ArgumentContent(args, "value").value), LightSuffix);
  }

  /** A missing value is not an error: it is echoed as the text `null`. */
  lemma LightAcceptsMissingValue(m: map<string, JsonElement>)
    requires "value" !in m
    ensures SetLightBrightness(Some(m)) == Ok(CallToolResult([TextContent("Light brightness set to: null%")]))
    ensures SetLightBrightness(None) == Ok(CallToolResult([TextContent("Light brightness set to: null%")]))
  {
    assert LightPrefix + "null" + LightSuffix == "Light brightness set to: null%";
  }

  // ---------------------------------------------------------------------------
  // The prompt

  datatype Role = User | Assistant
  datatype PromptMessage = PromptMessage(role: Role, content: TextContent)
  datatype GetPromptRequest = GetPromptRequest(name: string, arguments: Option<map<string, string>>)
  datatype GetPromptResult = GetPromptResult(messages: seq<PromptMessage>, description: string)

  const ProjectNameArg: string := "Project Name"
  const PromptPrefix: string := "Develop a kotlin project named <name>"
  const PromptSuffix: string := "</name>"
  const DescriptionPrefix: string := "Description for "

  /** `request.arguments?.get("Project Name")`. */
  function ProjectName(req: GetPromptRequest): (r: Option<string>)
    ensures r.Some? <==> req.arguments.Some? && ProjectNameArg in req.arguments.value
    ensures r.Some? ==> r.value == req.arguments.value[ProjectNameArg]
  {
    match req.arguments
    case None => None
    case Some(m) => if ProjectNameArg in m then Some(m[ProjectNameArg]) else None
  }

  /** The `Kotlin Developer` prompt: one user message naming the project, and
      a description naming the prompt. */
  function KotlinDeveloperPrompt(req: GetPromptRequest): (r: GetPromptResult)
    ensures |r.messages| == 1 && r.messages[0].role == User
  {
    GetPromptResult(
      [PromptMessage(User, TextContent(PromptPrefix + Interpolate(ProjectName(req)) + PromptSuffix))],
      DescriptionPrefix + req.name)
  }

  /** The project name and the prompt name can be read back from the
      prompt's message and description. */
  lemma PromptRoundTrip(req: GetPromptRequest)
    ensures StripAffixes(PromptPrefix, PromptSuffix, KotlinDeveloperPrompt(req).messages[0].content.text)
         == Some(Interpolate(ProjectName(req)))
    ensures StripAffixes(DescriptionPrefix, "", KotlinDeveloperPrompt(req).description) == Some(req.name)
  {
    StripAffixesInverts(PromptPrefix, Interpolate(ProjectName(req)), PromptSuffix);
    StripPrefixInverts(DescriptionPrefix, req.name);
  }

  // ---------------------------------------------------------------------------
  // The resource

  datatype TextResourceContents = TextResourceContents(text: string, uri: string, mimeType: string)
  datatype ReadResourceResult = ReadResourceResult(contents: seq<TextResourceContents>)

  const ResourceUri: string := "https://search.com/"
  const ResourceMimeType: string := "text/html"
  const PlaceholderPrefix: string := "Placeholder content for "

  /** A read of the resource: one placeholder text naming the requested uri. */
  function ReadPlaceholder(uri: string): (r: ReadResourceResult)
    ensures |r.contents| == 1
    ensures r.contents[0].uri == uri && r.contents[0].mimeType == ResourceMimeType
  {
    ReadResourceResult([TextResourceContents(PlaceholderPrefix + uri, uri, ResourceMimeType)])
  }

  /** The placeholder text names exactly the requested uri, so distinct uris
      give distinct contents. */
  lemma PlaceholderNamesUri(uri: string, other: string)
    ensures StripAffixes(PlaceholderPrefix, "", ReadPlaceholder(uri).contents[0].text) == Some(uri)
    ensures ReadPlaceholder(uri) == ReadPlaceholder(other) ==> uri == other
  {
    StripPrefixInverts(PlaceholderPrefix, uri);
  }

  /** Reading `https://search.com/` gives exactly the placeholder for it. */
  lemma ReadSearchResource()
    ensures ReadPlaceholder(ResourceUri).contents
         == [TextResourceContents("Placeholder content for https://search.com/", "https://search.com/", "text/html")]
  {
    assert PlaceholderPrefix + ResourceUri == "Placeholder content for https://search.com/";
  }
}
