/**
 * The upstream client: input-size validation, the instruction and user
 * prompts per operation kind, the request payload, the classification of
 * the upstream reply and the pricing formula.
 *
 * The HTTP exchange itself is not modelled: what the network and the
 * remote API did with a request is the `Reply` passed in, and the client
 * records in `sent` every payload that actually went out.
 */
module DeepSeek {
  import opened Common

  // ---------------------------------------------------------------------
  // arguments of a tool call

  /** The three operation kinds that reach the upstream model. */
  datatype Kind = Generate | Edit | Review

  function KindName(k: Kind): string
  {
    match k
    case Generate => "generate_code"
    case Edit => "edit_code"
    case Review => "review_code"
  }

  /**
   * A tool call's arguments: the string-valued ones by name, and the
   * optional list of review focus areas.
   */
  datatype Arguments = Arguments(fields: map<string, string>, focusAreas: Option<seq<string>>)

  /** `arguments.get(key)` is truthy: present and non-empty. */
  predicate Given(args: Arguments, key: string)
  {
    key in args.fields && args.fields[key] != ""
  }

  function Language(args: Arguments): string
  {
    Get(args.fields, "language", "python")
  }

  // ---------------------------------------------------------------------
  // input-size validation

  const MaxCodeLength: nat := 100000
  const MaxDescriptionLength: nat := 10000

  /** The large free-text fields, checked first, in this order. */
  const CodeFields: seq<string> := ["code", "original_code", "context"]

  /** The short free-text fields, checked after the large ones. */
  const DescriptionFields: seq<string> := ["task_description", "change_request"]

  /** A present, non-empty field longer than its limit; a field exactly at the limit passes. */
  predicate TooLong(args: Arguments, key: string, limit: nat)
  {
    Given(args, key) && |args.fields[key]| > limit
  }

  function LengthMessage(key: string, limit: nat): string
  {
    key + " exceeds maximum length of " + NatToString(limit) + " characters"
  }

  /** The first of `keys` whose field is too long. */
  function FirstTooLong(args: Arguments, keys: seq<string>, limit: nat): (r: Option<string>)
    ensures r.None? <==> forall i :: 0 <= i < |keys| ==> !TooLong(args, keys[i], limit)
    ensures r.Some? ==> exists i :: 0 <= i < |keys| && keys[i] == r.value && TooLong(args, keys[i], limit) &&
                                    forall j :: 0 <= j < i ==> !TooLong(args, keys[j], limit)
  {
    if keys == [] then None
    else if TooLong(args, keys[0], limit) then Some(keys[0])
    else
      var rest := FirstTooLong(args, keys[1..], limit);
      assert forall i :: 1 <= i < |keys| ==> keys[i] == keys[1..][i - 1];
      rest
  }

  /**
   * The ValueError the validation raises, if any: a too-long large field is
   * reported before any too-long short field, and the message names the
   * field and its class's limit.
   */
  function ValidationError(args: Arguments): (r: Option<Exc>)
    ensures r.None? <==> (forall i :: 0 <= i < |CodeFields| ==> !TooLong(args, CodeFields[i], MaxCodeLength)) &&
                         (forall i :: 0 <= i < |DescriptionFields| ==> !TooLong(args, DescriptionFields[i], MaxDescriptionLength))
    ensures (exists i :: 0 <= i < |CodeFields| && TooLong(args, CodeFields[i], MaxCodeLength)) ==>
              exists i :: 0 <= i < |CodeFields| && TooLong(args, CodeFields[i], MaxCodeLength) &&
                          (forall j :: 0 <= j < i ==> !TooLong(args, CodeFields[j], MaxCodeLength)) &&
                          r == Some(ValueError(LengthMessage(CodeFields[i], MaxCodeLength)))
    ensures (forall i :: 0 <= i < |CodeFields| ==> !TooLong(args, CodeFields[i], MaxCodeLength)) &&
            (exists i :: 0 <= i < |DescriptionFields| && TooLong(args, DescriptionFields[i], MaxDescriptionLength)) ==>
              exists i :: 0 <= i < |DescriptionFields| && TooLong(args, DescriptionFields[i], MaxDescriptionLength) &&
                          (forall j :: 0 <= j < i ==> !TooLong(args, DescriptionFields[j], MaxDescriptionLength)) &&
                          r == Some(ValueError(LengthMessage(DescriptionFields[i], MaxDescriptionLength)))
    ensures r.Some? ==> r.value.ValueError?
  {
    match FirstTooLong(args, CodeFields, MaxCodeLength)
    case Some(key) => Some(ValueError(LengthMessage(key, MaxCodeLength)))
    case None =>
      match FirstTooLong(args, DescriptionFields, MaxDescriptionLength)
      case Some(key) => Some(ValueError(LengthMessage(key, MaxDescriptionLength)))
      case None => None
  }

  /** `_validate_inputs`: the two loops over the field classes. */
  method ValidateInputs(args: Arguments) returns (err: Option<Exc>)
    ensures err == ValidationError(args)
  {
    var i := 0;
    while i < |CodeFields|
      invariant 0 <= i <= |CodeFields|
      invariant FirstTooLong(args, CodeFields, MaxCodeLength) == FirstTooLong(args, CodeFields[i..], MaxCodeLength)
    {
      var key := CodeFields[i];
      assert CodeFields[i..][1..] == CodeFields[i + 1..];
      if Given(args, key) && |args.fields[key]| > MaxCodeLength {
        return Some(ValueError(LengthMessage(key, MaxCodeLength)));
      }
      i := i + 1;
    }
    var j := 0;
    while j < |DescriptionFields|
      invariant 0 <= j <= |DescriptionFields|
      invariant FirstTooLong(args, DescriptionFields, MaxDescriptionLength) ==
                FirstTooLong(args, DescriptionFields[j..], MaxDescriptionLength)
    {
      var key := DescriptionFields[j];
      assert DescriptionFields[j..][1..] == DescriptionFields[j + 1..];
      if Given(args, key) && |args.fields[key]| > MaxDescriptionLength {
        return Some(ValueError(LengthMessage(key, MaxDescriptionLength)));
      }
      j := j + 1;
    }
    return None;
  }

  // ---------------------------------------------------------------------
  // instruction (system) prompts
  //
  // The texts are written as concatenations of short pieces: the verifier
  // handles many short literals far more cheaply than a few long ones.

  function GenerateInstructionsHead(): string
  {
    "You are a code " + "generation " + "specialist. Write " + "clean, working " + "code.\n" +
    "\n" +
    "RULES:\n" +
    "1. Return ONLY a " + "JSON object with " + "keys \"code\" and " + "\"explanation\"\n" +
    "2. Code must be " + "complete, " + "runnable, and " + "follow best " + "practices for "
  }
  function GenerateInstructionsTail(): string
  {
    "\n" +
    "3. Explanation " + "must be brief " + "(1-2 sentences) " + "describing key " + "decisions\n" +
    "4. No markdown " + "formatting, no " + "code fences, no " + "prose outside " + "JSON\n" +
    "5. If unsure, " + "make reasonable " + "assumptions and " + "document in " + "explanation\n" +
    "\n" +
    "OUTPUT FORMAT:\n" +
    "{\"code\": \"...\", " + "\"explanation\": " + "\"...\"}"
  }

  /** Sent without formatting, so its output-format line keeps the doubled braces. */
  function EditInstructions(): string
  {
    "You are a code " + "editing " + "specialist. " + "Modify existing " + "code as " + "requested.\n" +
    "\n" +
    "RULES:\n" +
    "1. Return ONLY a " + "JSON object with " + "keys \"code\" and " + "\"explanation\"\n" +
    "2. The \"code\" " + "field must " + "contain the " + "complete modified " + "code\n" +
    "3. Preserve the " + "original code's " + "style and " + "conventions\n" +
    "4. Explanation " + "must be brief " + "(1-2 sentences) " + "describing what " + "changed\n" +
    "5. No markdown " + "formatting, no " + "code fences, no " + "prose outside " + "JSON\n" +
    "\n" +
    "OUTPUT FORMAT:\n" +
    "{{\"code\": \"...\", " + "\"explanation\": " + "\"...\"}}"
  }

  function ReviewInstructionsHead(): string
  {
    "You are a code " + "reviewer. Analyze " + "the provided code " + "for issues.\n" +
    "\n" +
    "Focus areas: "
  }
  function ReviewInstructionsTail(): string
  {
    "\n" +
    "\n" +
    "Return JSON with:\n" +
    "- \"code\": " + "(original code " + "unchanged)\n" +
    "- \"explanation\": " + "summary of " + "findings\n" +
    "- \"suggestions\": " + "array of specific " + "improvements"
  }

  const FallbackInstructions: string := "You are a helpful coding assistant."

  const DefaultFocusAreas: seq<string> := ["performance", "security", "readability"]

  /** The focus areas the review instructions list: the default three only when the key is absent. */
  function InstructionFocus(args: Arguments): seq<string>
  {
    if args.focusAreas.Some? then args.focusAreas.value else DefaultFocusAreas
  }

  /** Which instruction template a call uses, with the values formatted into it. */
  datatype Instructions =
    | GenerateFor(language: string)
    | EditAsWritten
    | ReviewFor(focus: seq<string>)
    | Generic

  /** `_get_system_prompt`: the template for the tool and the values it is formatted with. */
  function SystemPrompt(toolName: string, args: Arguments): (i: Instructions)
    ensures i.GenerateFor? <==> toolName == "generate_code"
    ensures i.EditAsWritten? <==> toolName == "edit_code"
    ensures i.ReviewFor? <==> toolName == "review_code"
    ensures i.Generic? <==> toolName !in {"generate_code", "edit_code", "review_code"}
    ensures i.ReviewFor? ==> |i.focus| > 0 || args.focusAreas == Some([])
  {
    if toolName == "generate_code" then GenerateFor(Language(args))
    else if toolName == "edit_code" then EditAsWritten
    else if toolName == "review_code" then ReviewFor(InstructionFocus(args))
    else Generic
  }

  /** The text of an instruction prompt: its template with the values formatted in. */
  function InstructionText(i: Instructions): string
  {
    match i
    case GenerateFor(language) => GenerateInstructionsHead() + language + GenerateInstructionsTail()
    case EditAsWritten => EditInstructions()
    case ReviewFor(focus) => ReviewInstructionsHead() + Join(focus, ", ") + ReviewInstructionsTail()
    case Generic => FallbackInstructions
  }

  /**
   * Generation is instructed in the requested language, python when none
   * is given; review lists the requested focus areas, the default three
   * only when the key is absent; editing uses its text as written; any
   * other tool gets the generic assistant prompt.
   */
  lemma SystemPromptChoice(toolName: string, args: Arguments)
    ensures toolName == "generate_code" ==>
              SystemPrompt(toolName, args) == GenerateFor(Get(args.fields, "language", "python"))
    ensures toolName == "review_code" && args.focusAreas.Some? ==>
              SystemPrompt(toolName, args) == ReviewFor(args.focusAreas.value)
    ensures toolName == "review_code" && args.focusAreas.None? ==>
              SystemPrompt(toolName, args) == ReviewFor(["performance", "security", "readability"])
    ensures toolName == "edit_code" ==> InstructionText(SystemPrompt(toolName, args)) == EditInstructions()
    ensures toolName !in {"generate_code", "edit_code", "review_code"} ==>
              InstructionText(SystemPrompt(toolName, args)) == FallbackInstructions
  {
  }

  /** The rendered instructions carry the values formatted into them. */
  lemma InstructionTextNamesValues(i: Instructions)
    ensures i.GenerateFor? ==> Contains(InstructionText(i), i.language)
    ensures i.ReviewFor? ==> Contains(InstructionText(i), Join(i.focus, ", "))
  {
    match i
    case GenerateFor(language) =>
      ConcatParts(GenerateInstructionsHead(), language, GenerateInstructionsTail());
    case ReviewFor(focus) =>
      ConcatParts(ReviewInstructionsHead(), Join(focus, ", "), ReviewInstructionsTail());
    case _ =>
  }

  // ---------------------------------------------------------------------
  // user prompts

  /** The arguments a kind's user prompt indexes directly, in the order it reads them. */
  function PromptKeys(kind: Kind): seq<string>
  {
    match kind
    case Generate => ["task_description"]
    case Edit => ["original_code", "change_request"]
    case Review => ["code"]
  }

  function Fenced(heading: string, code: string): string
  {
    heading + ":\n```\n" + code + "\n```"
  }

  /**
   * The lines of a user prompt, joined by newlines:
   * generate: task, language, then the target file and the context when given;
   * edit: the fenced original code, the change request, language, then the file when given;
   * review: the fenced code, then the focus areas when the list is non-empty.
   */
  function PromptLines(kind: Kind, args: Arguments): (lines: seq<string>)
    requires forall k :: k in PromptKeys(kind) ==> k in args.fields
    ensures kind.Generate? ==>
              |lines| == 2 + (if Given(args, "file_path") then 1 else 0) + (if Given(args, "context") then 1 else 0) &&
              lines[0] == "Task: " + args.fields["task_description"] &&
              lines[1] == "Language: " + Language(args) &&
              (Given(args, "file_path") ==> lines[2] == "Target file: " + args.fields["file_path"]) &&
              (Given(args, "context") ==> lines[|lines| - 1] == "Context:\n" + args.fields["context"])
    ensures kind.Edit? ==>
              |lines| == 3 + (if Given(args, "file_path") then 1 else 0) &&
              lines[0] == Fenced("Original code", args.fields["original_code"]) &&
              lines[1] == "Change request: " + args.fields["change_request"] &&
              lines[2] == "Language: " + Language(args) &&
              (Given(args, "file_path") ==> lines[3] == "File: " + args.fields["file_path"])
    ensures kind.Review? ==>
              |lines| == (if args.focusAreas.Some? && args.focusAreas.value != [] then 2 else 1) &&
              lines[0] == Fenced("Code to review", args.fields["code"]) &&
              (|lines| == 2 ==> lines[1] == "Focus on: " + Join(args.focusAreas.value, ", "))
  {
    match kind
    case Generate =>
      ["Task: " + args.fields["task_description"], "Language: " + Language(args)]
      + (if Given(args, "file_path") then ["Target file: " + args.fields["file_path"]] else [])
      + (if Given(args, "context") then ["Context:\n" + args.fields["context"]] else [])
    case Edit =>
      [Fenced("Original code", args.fields["original_code"]),
       "Change request: " + args.fields["change_request"],
       "Language: " + Language(args)]
      + (if Given(args, "file_path") then ["File: " + args.fields["file_path"]] else [])
    case Review =>
      [Fenced("Code to review", args.fields["code"])]
      + (if args.focusAreas.Some? && args.focusAreas.value != [] then ["Focus on: " + Join(args.focusAreas.value, ", ")] else [])
  }

  /** The first key of `keys` missing from the arguments. */
  function FirstMissing(args: Arguments, keys: seq<string>): (r: Option<string>)
    ensures r.None? <==> forall k :: k in keys ==> k in args.fields
    ensures r.Some? ==> exists i :: 0 <= i < |keys| && keys[i] == r.value && r.value !in args.fields &&
                                    forall j :: 0 <= j < i ==> keys[j] in args.fields
  {
    if keys == [] then None
    else if keys[0] !in args.fields then Some(keys[0])
    else
      var rest := FirstMissing(args, keys[1..]);
      assert forall i :: 1 <= i < |keys| ==> keys[i] == keys[1..][i - 1];
      rest
  }

  /** `_build_user_prompt`: the joined lines, or the KeyError of the first missing argument. */
  function UserPrompt(kind: Kind, args: Arguments): (r: Result<string, Exc>)
    ensures r.Failure? <==> exists k :: k in PromptKeys(kind) && k !in args.fields
    ensures r.Failure? ==> exists i :: 0 <= i < |PromptKeys(kind)| && r.error == KeyError(PromptKeys(kind)[i]) &&
                                      PromptKeys(kind)[i] !in args.fields &&
                                      forall j :: 0 <= j < i ==> PromptKeys(kind)[j] in args.fields
    ensures r.Success? ==> r.value == Join(PromptLines(kind, args), "\n")
  {
    match FirstMissing(args, PromptKeys(kind))
    case Some(key) => Failure(KeyError(key))
    case None => Success(Join(PromptLines(kind, args), "\n"))
  }

  /** The generation prompt carries the task and the language. */
  lemma GeneratePromptMentions(args: Arguments)
    requires UserPrompt(Generate, args).Success?
    ensures Contains(UserPrompt(Generate, args).value, args.fields["task_description"])
    ensures Contains(UserPrompt(Generate, args).value, Language(args))
  {
    var lines := PromptLines(Generate, args);
    var prompt := Join(lines, "\n");
    JoinContainsPart(lines, "\n", 0);
    JoinContainsPart(lines, "\n", 1);
    ContainsTransitive(prompt, lines[0], args.fields["task_description"], |"Task: "|);
    ContainsTransitive(prompt, lines[1], Language(args), |"Language: "|);
  }

  /** The edit prompt carries the original code and the change request. */
  lemma EditPromptMentions(args: Arguments)
    requires UserPrompt(Edit, args).Success?
    ensures Contains(UserPrompt(Edit, args).value, args.fields["original_code"])
    ensures Contains(UserPrompt(Edit, args).value, args.fields["change_request"])
  {
    var lines := PromptLines(Edit, args);
    var prompt := Join(lines, "\n");
    JoinContainsPart(lines, "\n", 0);
    JoinContainsPart(lines, "\n", 1);
    ContainsTransitive(prompt, lines[0], args.fields["original_code"], |"Original code:\n```\n"|);
    ContainsTransitive(prompt, lines[1], args.fields["change_request"], |"Change request: "|);
  }

  /** The review prompt carries the code under review. */
  lemma ReviewPromptMentions(args: Arguments)
    requires UserPrompt(Review, args).Success?
    ensures Contains(UserPrompt(Review, args).value, args.fields["code"])
  {
    var lines := PromptLines(Review, args);
    JoinContainsPart(lines, "\n", 0);
    ContainsTransitive(Join(lines, "\n"), lines[0], args.fields["code"], |"Code to review:\n```\n"|);
  }

  // ---------------------------------------------------------------------
  // pricing

  /** Dollars per token for prompt and completion tokens ($0.25 and $0.38 per million). */
  const InputRate: real := 0.25
  const OutputRate: real := 0.38

  /** The cost of a call, rounded to 6 decimals; never negative. */
  function TokenCost(inputTokens: nat, outputTokens: nat): (c: real)
    ensures c >= 0.0
  {
    var exact := inputTokens as real / 1000000.0 * InputRate + outputTokens as real / 1000000.0 * OutputRate;
    Round6Exact(0);
    Round6Monotone(0.0, exact);
    Round6(exact)
  }

  /** `_calculate_cost`: token counts missing from the usage block count as 0. */
  function CalculateCost(usage: map<string, nat>): (c: real)
    ensures c >= 0.0
    ensures "prompt_tokens" !in usage && "completion_tokens" !in usage ==> c == 0.0
    ensures c == TokenCost(Get(usage, "prompt_tokens", 0), Get(usage, "completion_tokens", 0))
  {
    Round6Exact(0);
    TokenCost(Get(usage, "prompt_tokens", 0), Get(usage, "completion_tokens", 0))
  }

  /** More tokens never cost less. */
  lemma CostMonotone(in1: nat, out1: nat, in2: nat, out2: nat)
    requires in1 <= in2 && out1 <= out2
    ensures TokenCost(in1, out1) <= TokenCost(in2, out2)
  {
    Round6Monotone(in1 as real / 1000000.0 * InputRate + out1 as real / 1000000.0 * OutputRate,
                   in2 as real / 1000000.0 * InputRate + out2 as real / 1000000.0 * OutputRate);
  }

  /** One million tokens each way cost exactly 0.63, not 0.70; an empty usage block costs 0.0. */
  lemma CostExamples()
    ensures TokenCost(1000000, 1000000) == 0.63
    ensures TokenCost(1000000, 1000000) != 0.70
    ensures CalculateCost(map[]) == 0.0
    ensures TokenCost(1000000, 0) == 0.25
    ensures TokenCost(0, 1000000) == 0.38
  {
    Round6Exact(250000);
    assert 250000 as real / Micro == 0.25;
    Round6Exact(380000);
    assert 380000 as real / Micro == 0.38;
    Round6Exact(630000);
    assert 630000 as real / Micro == 0.63;
    Round6Exact(0);
  }

  // ---------------------------------------------------------------------
  // configuration and payload

  /** The settings the client captures from the configuration. */
  datatype Settings = Settings(apiKey: Value, model: Value, zdr: Value, providers: Value)

  const ApiKeyRequired := "openrouter_api_key is required in secrets"

  /**
   * The client's constructor: a missing or falsy credential is an error;
   * otherwise the model, retention flag and providers come from the
   * configuration or default to deepseek/deepseek-v3.2, true and [].
   */
  function Configure(secrets: map<string, Value>): (r: Result<Settings, Exc>)
    ensures r.Failure? <==> "openrouter_api_key" !in secrets || !Truthy(secrets["openrouter_api_key"])
    ensures r.Failure? ==> r.error == ValueError(ApiKeyRequired)
    ensures r.Success? ==> r.value.apiKey == secrets["openrouter_api_key"]
    ensures r.Success? ==> r.value.model == (if "worker_model" in secrets then secrets["worker_model"] else Str("deepseek/deepseek-v3.2"))
    ensures r.Success? ==> r.value.zdr == (if "zdr_enabled" in secrets then secrets["zdr_enabled"] else Bool(true))
    ensures r.Success? ==> r.value.providers == (if "preferred_providers" in secrets then secrets["preferred_providers"] else List([]))
  {
    var key := Lookup(secrets, "openrouter_api_key");
    if key.None? || !Truthy(key.value) then Failure(ValueError(ApiKeyRequired))
    else Success(Settings(key.value,
                          Get(secrets, "worker_model", Str("deepseek/deepseek-v3.2")),
                          Get(secrets, "zdr_enabled", Bool(true)),
                          Get(secrets, "preferred_providers", List([]))))
  }

  datatype ChatMessage = ChatMessage(role: string, content: string)

  /**
   * The chat-completions request body. The system message is kept as the
   * template it was rendered from (`Messages` renders it); `reasoning`
   * stands for the key being present and true.
   */
  datatype Payload = Payload(
    model: Value,
    instructions: Instructions,
    userPrompt: string,
    responseFormat: string,
    providerOrder: Value,
    requireZdr: Value,
    reasoning: bool)

  /** The `messages` list of a payload: the instructions, then the user prompt. */
  function Messages(p: Payload): seq<ChatMessage>
  {
    [ChatMessage("system", InstructionText(p.instructions)), ChatMessage("user", p.userPrompt)]
  }

  /**
   * The request body `call` sends: model and provider settings from the
   * client, the system then the user message, a JSON response, and
   * reasoning for reviews only.
   */
  function BuildPayload(s: Settings, system: Instructions, user: string, kind: Kind): (p: Payload)
    ensures p.model == s.model && p.providerOrder == s.providers && p.requireZdr == s.zdr
    ensures p.responseFormat == "json_object"
    ensures p.reasoning <==> kind == Review
  {
    Payload(s.model, system, user, "json_object", s.providers, s.zdr, kind == Review)
  }

  // ---------------------------------------------------------------------
  // the upstream reply and its classification

  /** What `choices[0].message.content` held. */
  datatype Content =
    | NoContent             // choices, the first choice, message or content missing
    | NotJsonContent        // a string that is not JSON
    | NotStringContent(raw: Value)  // present, but not a string at all
    | JsonContent(value: Value)

  /** The response body: not JSON at all, or JSON with the model's content and the usage block. */
  datatype Body =
    | NotJson(decodeError: string)
    | Json(content: Content, usage: Option<map<string, nat>>)

  /** What the network and the remote API did with the request. */
  datatype Reply =
    | NoResponse                     // connection failure, timeout: no response received
    | Response(status: nat, body: Body)

  /** The normalised result of a successful call. */
  datatype ToolResult = ToolResult(
    code: Value,
    explanation: Value,
    suggestions: Value,
    costUsd: real,
    inputTokens: nat,
    outputTokens: nat)

  const ConnectFailure := "Failed to connect to OpenRouter API"
  const Unparseable := "DeepSeek returned an unparseable response"
  const StatusPrefix := "OpenRouter API returned "
  /** What the HTTP library raises when a request is sent through a closed client. */
  const ClientClosed := "Cannot send a request, as the client has been closed."

  /** The error for a non-2xx status: the code only, never the body. */
  function StatusMessage(status: nat): string
  {
    StatusPrefix + NatToString(status)
  }

  /** The status code can be read back from its error message. */
  lemma StatusMessageNamesStatus(status: nat)
    ensures StartsWith(StatusMessage(status), StatusPrefix)
    ensures AllDigits(StatusMessage(status)[|StatusPrefix|..])
    ensures ParseNat(StatusMessage(status)[|StatusPrefix|..]) == status
  {
    assert StatusMessage(status)[|StatusPrefix|..] == NatToString(status);
    assert StatusMessage(status)[..|StatusPrefix|] == StatusPrefix;
    ParseNatToString(status);
  }

  predicate IsSuccessStatus(status: nat)
  {
    200 <= status < 300
  }

  function UsageOf(usage: Option<map<string, nat>>): map<string, nat>
  {
    if usage.Some? then usage.value else map[]
  }

  /**
   * The reply of a request that went out, classified: a connection
   * failure, a non-2xx status and a malformed completion are errors; a
   * body that is not JSON raises the decoder's ValueError; a completion
   * whose content is JSON but not an object fails on `.get`.
   */
  function Classify(reply: Reply): (r: Result<ToolResult, Exc>)
    ensures reply.NoResponse? ==> r == Failure(RuntimeError(ConnectFailure))
    ensures reply.Response? && !IsSuccessStatus(reply.status) ==> r == Failure(RuntimeError(StatusMessage(reply.status)))
    ensures reply.Response? && IsSuccessStatus(reply.status) && reply.body.Json? &&
            (reply.body.content.NoContent? || reply.body.content.NotJsonContent?) ==>
              r == Failure(RuntimeError(Unparseable))
    ensures reply.Response? && IsSuccessStatus(reply.status) && reply.body.NotJson? ==>
              r == Failure(ValueError(reply.body.decodeError))
    ensures reply.Response? && IsSuccessStatus(reply.status) && reply.body.Json? && reply.body.content.NotStringContent? ==>
              r == Failure(TypeError("the JSON object must be str, bytes or bytearray, not " + TypeName(reply.body.content.raw)))
    ensures reply.Response? && IsSuccessStatus(reply.status) && reply.body.Json? &&
            reply.body.content.JsonContent? && !reply.body.content.value.Obj? ==>
              r == Failure(NoGetAttribute(reply.body.content.value))
    ensures r.Success? <==> reply.Response? && IsSuccessStatus(reply.status) && reply.body.Json? &&
                            reply.body.content.JsonContent? && reply.body.content.value.Obj?
    ensures r.Success? ==>
              var out := reply.body.content.value.fields;
              var usage := UsageOf(reply.body.usage);
              && r.value.code == Get(out, "code", Str(""))
              && r.value.explanation == Get(out, "explanation", Str(""))
              && r.value.suggestions == Get(out, "suggestions", List([]))
              && r.value.inputTokens == Get(usage, "prompt_tokens", 0)
              && r.value.outputTokens == Get(usage, "completion_tokens", 0)
              && r.value.costUsd == TokenCost(r.value.inputTokens, r.value.outputTokens)
  {
    match reply
    case NoResponse => Failure(RuntimeError(ConnectFailure))
    case Response(status, body) =>
      if !IsSuccessStatus(status) then Failure(RuntimeError(StatusMessage(status)))
      else
        match body
        case NotJson(decodeError) => Failure(ValueError(decodeError))
        case Json(content, usageBlock) =>
          match content
          case NoContent => Failure(RuntimeError(Unparseable))
          case NotJsonContent => Failure(RuntimeError(Unparseable))
          case NotStringContent(raw) => Failure(TypeError("the JSON object must be str, bytes or bytearray, not " + TypeName(raw)))
          case JsonContent(v) =>
            if !v.Obj? then Failure(NoGetAttribute(v))
            else
              var usage := UsageOf(usageBlock);
              Success(ToolResult(
                Get(v.fields, "code", Str("")),
                Get(v.fields, "explanation", Str("")),
                Get(v.fields, "suggestions", List([])),
                CalculateCost(usage),
                Get(usage, "prompt_tokens", 0),
                Get(usage, "completion_tokens", 0)))
  }

  // ---------------------------------------------------------------------
  // one call

  /** What one call did: the payload it sent, if any, and its outcome. */
  datatype Trace = Trace(request: Option<Payload>, result: Result<ToolResult, Exc>)

  /**
   * `call`: validate, build both prompts and the payload, send it (unless
   * the client is closed) and classify the reply. Nothing is sent when
   * validation or prompt building fails.
   */
  function CallSpec(s: Settings, closed: bool, args: Arguments, kind: Kind, reply: Reply): (t: Trace)
    ensures ValidationError(args).Some? ==> t == Trace(None, Failure(ValidationError(args).value))
    ensures t.request.Some? <==> ValidationError(args).None? && UserPrompt(kind, args).Success? && !closed
    ensures ValidationError(args).None? && UserPrompt(kind, args).Success? && closed ==>
              t.result == Failure(RuntimeError(ClientClosed))
    ensures ValidationError(args).None? && UserPrompt(kind, args).Failure? ==>
              t == Trace(None, Failure(UserPrompt(kind, args).error))
    ensures t.request.Some? ==> t.result == Classify(reply)
    ensures t.result.Success? ==> t.request.Some?
  {
    match ValidationError(args)
    case Some(e) => Trace(None, Failure(e))
    case None =>
      var system := SystemPrompt(KindName(kind), args);
      match UserPrompt(kind, args)
      case Failure(e) => Trace(None, Failure(e))
      case Success(user) =>
        if closed then Trace(None, Failure(RuntimeError(ClientClosed)))
        else Trace(Some(BuildPayload(s, system, user, kind)), Classify(reply))
  }

  /**
   * What goes out: the configured model, provider order and retention
   * flag, a JSON-object response format, the instruction prompt then the
   * user prompt, and reasoning mode for reviews only.
   */
  lemma SentPayload(s: Settings, closed: bool, args: Arguments, kind: Kind, reply: Reply)
    requires CallSpec(s, closed, args, kind, reply).request.Some?
    ensures var p := CallSpec(s, closed, args, kind, reply).request.value;
            && p.responseFormat == "json_object"
            && p.model == s.model
            && p.providerOrder == s.providers
            && p.requireZdr == s.zdr
            && (p.reasoning <==> kind == Review)
            && Messages(p) == [ChatMessage("system", InstructionText(SystemPrompt(KindName(kind), args))),
                               ChatMessage("user", UserPrompt(kind, args).value)]
  {
  }

  class DeepSeekClient {
    const settings: Settings
    /** The HTTP connection has been released. */
    var closed: bool
    ghost var closeCalls: nat
    /** Every payload that went out over the connection, in order. */
    ghost var sent: seq<Payload>

    constructor(settings: Settings)
      ensures this.settings == settings && !closed && closeCalls == 0 && sent == []
    {
      this.settings := settings;
      closed := false;
      closeCalls := 0;
      sent := [];
    }

    /** Construction from the configuration, refused without a credential. */
    static method Open(secrets: map<string, Value>) returns (r: Result<DeepSeekClient, Exc>)
      ensures r.Failure? <==> Configure(secrets).Failure?
      ensures r.Failure? ==> r.error == Configure(secrets).error
      ensures r.Success? ==> fresh(r.value) && r.value.settings == Configure(secrets).value &&
                             !r.value.closed && r.value.closeCalls == 0 && r.value.sent == []
    {
      match Configure(secrets)
      case Failure(e) => return Failure(e);
      case Success(s) =>
        var client := new DeepSeekClient(s);
        return Success(client);
    }

    /** Release the connection. */
    method Close()
      modifies this
      ensures closed && closeCalls == old(closeCalls) + 1 && sent == old(sent)
    {
      closed := true;
      closeCalls := closeCalls + 1;
    }

    /** Perform one operation; `reply` is what the remote side answers. */
    method Call(args: Arguments, kind: Kind, reply: Reply) returns (r: Result<ToolResult, Exc>)
      modifies this
      ensures var t := CallSpec(settings, old(closed), args, kind, reply);
              r == t.result && sent == old(sent) + (if t.request.Some? then [t.request.value] else [])
      ensures closed == old(closed) && closeCalls == old(closeCalls)
    {
      var err := ValidateInputs(args);
      if err.Some? {
        return Failure(err.value);
      }
      var system := SystemPrompt(KindName(kind), args);
      var user := UserPrompt(kind, args);
      if user.Failure? {
        return Failure(user.error);
      }
      var payload := BuildPayload(settings, system, user.value, kind);
      if closed {
        return Failure(RuntimeError(ClientClosed));
      }
      sent := sent + [payload];
      r := Classify(reply);
    }
  }
}
