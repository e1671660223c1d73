/** What `configureServer` registers: one prompt, two tools and one resource,
    each with the descriptor clients see when they list them. */
module Catalog {
  import opened Wrappers
  import opened Handlers

  datatype ToolDescriptor = ToolDescriptor(name: string, required: seq<string>)
  datatype PromptArgument = PromptArgument(name: string, required: bool)
  datatype PromptDescriptor = PromptDescriptor(name: string, arguments: seq<PromptArgument>)
  datatype ResourceDescriptor = ResourceDescriptor(uri: string, name: string, mimeType: string)

  /** The two handler lambdas registered with `addTool`. */
  datatype ToolHandler = CalculatorHandler | LightHandler

  const CalculatorTool: ToolDescriptor := ToolDescriptor("calculator", ["num1", "num2", "op"])
  const LightTool: ToolDescriptor := ToolDescriptor("set_light_brightness", ["value"])

  const Tools: seq<ToolDescriptor> := [CalculatorTool, LightTool]
  const Prompts: seq<PromptDescriptor> :=
    [PromptDescriptor("Kotlin Developer", [PromptArgument(ProjectNameArg, true)])]
  const Resources: seq<ResourceDescriptor> :=
    [ResourceDescriptor(ResourceUri, "Web Search", ResourceMimeType)]

  /** The handler registered under a tool name, if any. */
  function HandlerFor(name: string): (h: Option<ToolHandler>)
    ensures h.Some? <==> exists i :: 0 <= i < |Tools| && Tools[i].name == name
  {
    if name == CalculatorTool.name then assert Tools[0].name == name; Some(CalculatorHandler)
    else if name == LightTool.name then assert Tools[1].name == name; Some(LightHandler)
    else None
  }

  /** Invoking a registered tool by name runs its handler. */
  function CallTool(name: string, args: Arguments, parse: string -> Option<real>, format: real -> string)
    : (r: Option<Result<CallToolResult, ToolError>>)
    ensures r.Some? <==> HandlerFor(name).Some?
    ensures name == CalculatorTool.name ==> r == Some(Calculator(args, parse, format))
    ensures name == LightTool.name ==> r == Some(SetLightBrightness(args))
  {
    match HandlerFor(name)
    case None => None
    case Some(CalculatorHandler) => Some(Calculator(args, parse, format))
    case Some(LightHandler) => Some(SetLightBrightness(args))
  }

  /** Tool names are unique, so each name selects one handler. */
  lemma ToolNamesUnique()
    ensures forall i, j :: 0 <= i < j < |Tools| ==> Tools[i].name != Tools[j].name
  {
  }

  /** Leaving out any argument the calculator's schema marks as required
      makes the calculator fail with an invalid-argument error; when every
      supplied value is a JSON primitive it is the "Invalid or missing
      argument" failure. */
  lemma CalculatorEnforcesItsSchema(m: map<string, JsonElement>, parse: string -> Option<real>, format: real -> string)
    requires exists i :: 0 <= i < |CalculatorTool.required| && CalculatorTool.required[i] !in m
    ensures Calculator(Some(m), parse, format).Err?
    ensures Calculator(Some(m), parse, format).error.InvalidArgument?
         || Calculator(Some(m), parse, format).error.NotAPrimitive?
    ensures (forall k :: k in m ==> m[k].JsonPrimitive?) ==>
              Calculator(Some(m), parse, format).error.InvalidArgument?
  {
    var i :| 0 <= i < |CalculatorTool.required| && CalculatorTool.required[i] !in m;
    assert CalculatorTool.required[i] in {"num1", "num2", "op"};
  }

  /** The light stub does not enforce its schema: a call without the
      required `value` still succeeds. */
  lemma LightIgnoresItsSchema(m: map<string, JsonElement>)
    requires LightTool.required[0] !in m
    ensures CallTool(LightTool.name, Some(m), _ => None, _ => "").value.Ok?
  {
  }

  /** Reading the one registered resource gives one placeholder naming its
      uri, with the MIME type it was registered with. */
  lemma RegisteredResourceRead()
    ensures ReadPlaceholder(Resources[0].uri).contents
         == [TextResourceContents(PlaceholderPrefix + Resources[0].uri, Resources[0].uri, Resources[0].mimeType)]
  {
  }

  /** The registered prompt's one required argument is the one its handler
      reads, and its description names the prompt. */
  lemma RegisteredPromptReadsItsArgument(req: GetPromptRequest)
    requires req.name == Prompts[0].name
    ensures |Prompts[0].arguments| == 1 && Prompts[0].arguments[0].required
    ensures req.arguments.Some? && Prompts[0].arguments[0].name in req.arguments.value ==>
              ProjectName(req) == Some(req.arguments.value[Prompts[0].arguments[0].name])
    ensures StripAffixes(DescriptionPrefix, "", KotlinDeveloperPrompt(req).description) == Some(Prompts[0].name)
  {
    PromptRoundTrip(req);
  }
}
