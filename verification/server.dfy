/**
 * The tool broker: the four advertised tools, the routing of a tool call,
 * the spend-limit gate in front of every upstream call, the exception
 * boundary around the client, and the ledger entry for every completed
 * call.
 *
 * One tool call runs against a `World`: the current time, what the remote
 * API answers, and whether the ledger store accepts a write. A call's
 * observable effect is a `Step`: its outcome, the payload that went out
 * (if any) and the ledger afterwards.
 */
module Server {
  import opened Common
  import Config
  import opened Database
  import opened DeepSeek

  // ---------------------------------------------------------------------
  // the advertised tools

  /** One argument of a tool's input schema; `choices` is its enumeration, empty when it has none. */
  datatype Property = Property(name: string, typ: string, choices: seq<string>)

  /** A tool and its input schema, whose top-level type is always an object. */
  datatype Tool = Tool(name: string, properties: seq<Property>, required: seq<string>)

  function PropertyNames(ps: seq<Property>): (names: seq<string>)
    ensures |names| == |ps|
    ensures forall i :: 0 <= i < |ps| ==> names[i] == ps[i].name
  {
    if ps == [] then [] else [ps[0].name] + PropertyNames(ps[1..])
  }

  const ToolNames: seq<string> := ["generate_code", "edit_code", "review_code", "get_cost_report"]

  /** Every key a tool's schema requires is one of its declared properties. */
  predicate RequiredDeclared(tool: Tool)
  {
    forall k :: k in tool.required ==> k in PropertyNames(tool.properties)
  }

  /** `_build_tool_list` */
  function ToolList(): (tools: seq<Tool>)
    ensures |tools| == |ToolNames|
    ensures forall i :: 0 <= i < |tools| ==> tools[i].name == ToolNames[i]
    ensures forall i :: 0 <= i < |tools| ==> RequiredDeclared(tools[i])
    ensures forall k: Kind :: ToolNames[KindIndex(k)] == KindName(k)
  {
    [ Tool("generate_code",
           [ Property("file_path", "string", []),
             Property("task_description", "string", []),
             Property("language", "string", []),
             Property("context", "string", []) ],
           ["task_description", "language"]),
      Tool("edit_code",
           [ Property("file_path", "string", []),
             Property("original_code", "string", []),
             Property("change_request", "string", []),
             Property("language", "string", []) ],
           ["original_code", "change_request", "language"]),
      Tool("review_code",
           [ Property("code", "string", []),
             Property("focus_areas", "array of string", []) ],
           ["code"]),
      Tool("get_cost_report",
           [ Property("period", "string", ValidPeriods),
             Property("tool", "string", []) ],
           ["period"]) ]
  }

  /** Where a kind's tool sits in the list. */
  function KindIndex(k: Kind): (i: nat)
    ensures i < 3
  {
    match k
    case Generate => 0
    case Edit => 1
    case Review => 2
  }

  /** The report tool offers exactly the periods the ledger accepts. */
  lemma ReportSchemaOffersValidPeriods()
    ensures ToolList()[3].properties[0].name == "period"
    ensures ToolList()[3].properties[0].choices == ValidPeriods
    ensures forall p :: p in ToolList()[3].properties[0].choices ==> ParsePeriod(p).Success?
  {
  }

  /**
   * Arguments carrying every key a code tool's schema requires always
   * yield a user prompt: the schema asks for at least what the prompt
   * builder indexes.
   */
  lemma {:induction false} SchemaRequiredSuffices(kind: Kind, args: Arguments)
    requires forall k :: k in ToolList()[KindIndex(kind)].required ==> k in args.fields
    ensures UserPrompt(kind, args).Success?
  {
    var required := ToolList()[KindIndex(kind)].required;
    forall k | k in PromptKeys(kind)
      ensures k in args.fields
    {
      assert k in required;
    }
  }

  // ---------------------------------------------------------------------
  // routing

  datatype Route = ToDeepSeek(kind: Kind) | ToReport | Unknown

  /** `_handle_tool_call`'s dispatch on the tool name. */
  function RouteOf(name: string): (r: Route)
    ensures r.ToDeepSeek? <==> name in {"generate_code", "edit_code", "review_code"}
    ensures r.ToDeepSeek? ==> KindName(r.kind) == name
    ensures r.ToReport? <==> name == "get_cost_report"
    ensures r.Unknown? <==> name !in ToolNames
  {
    if name == "generate_code" then ToDeepSeek(Generate)
    else if name == "edit_code" then ToDeepSeek(Edit)
    else if name == "review_code" then ToDeepSeek(Review)
    else if name == "get_cost_report" then ToReport
    else Unknown
  }

  // ---------------------------------------------------------------------
  // replies and outcomes

  /** The JSON text a handler returns. */
  datatype ToolReply =
    | ErrorText(error: string)                     // {"error": ...}
    | LimitExceeded(error: string, limitUsd: Value) // {"error": ..., "limit_usd": ...}
    | Completed(result: ToolResult)
    | ReportText(report: Report)

  /** A handler either returns a reply or lets an exception escape. */
  datatype Outcome = Returned(reply: ToolReply) | Raised(exc: Exc)

  /** What one tool call does: its outcome, the payload it sent and the ledger afterwards. */
  datatype Step = Step(outcome: Outcome, request: Option<Payload>, ledger: seq<Record>)

  /** The environment one tool call runs in. */
  datatype World = World(now: int, reply: Reply, ledgerWritable: bool)

  const DailyExceeded := "Daily cost limit exceeded"
  const MonthlyExceeded := "Monthly cost limit exceeded"
  /** The error the ledger store raises when an insert cannot be written. */
  const LedgerReadOnly := "attempt to write a readonly database"

  /** The handler catches ValueError and RuntimeError from the client and reports their text. */
  function Caught(e: Exc): (o: Outcome)
    ensures o.Returned? <==> e.ValueError? || e.RuntimeError?
    ensures o.Returned? ==> o.reply == ErrorText(Message(e))
    ensures o.Raised? ==> o.exc == e
  {
    if e.ValueError? || e.RuntimeError? then Returned(ErrorText(Message(e))) else Raised(e)
  }

  // ---------------------------------------------------------------------
  // the spend-limit gate

  /**
   * The daily and monthly limits from the configuration: the entries of
   * `cost_limits`, 10.0 and 50.0 where an entry (or the whole object) is
   * absent; a `cost_limits` entry that is not an object fails on `.get`.
   */
  function Limits(secrets: map<string, Value>): (r: Result<(Value, Value), Exc>)
    ensures r.Failure? <==> "cost_limits" in secrets && !secrets["cost_limits"].Obj?
    ensures r.Failure? ==> r.error == NoGetAttribute(secrets["cost_limits"])
    ensures r.Success? && "cost_limits" !in secrets ==> r.value == (Float(10.0), Float(50.0))
    ensures r.Success? && "cost_limits" in secrets ==>
              var configured := secrets["cost_limits"].fields;
              && r.value.0 == (if "daily_usd" in configured then configured["daily_usd"] else Float(10.0))
              && r.value.1 == (if "monthly_usd" in configured then configured["monthly_usd"] else Float(50.0))
  {
    var limits := Get(secrets, "cost_limits", Obj(map[]));
    if !limits.Obj? then Failure(NoGetAttribute(limits))
    else Success((Get(limits.fields, "daily_usd", Float(10.0)), Get(limits.fields, "monthly_usd", Float(50.0))))
  }

  /**
   * The TypeError of comparing the period's total with a limit that is not
   * a number. Over no rows the total is Python's `int` 0 (the sum of an
   * empty generator), otherwise a `float`.
   */
  function NotComparable(records: seq<Record>, p: Period, limit: Value, now: int): Exc
  {
    var total := if Select(records, WindowStart(p, now), None) == [] then "int" else "float";
    TypeError("'<' not supported between instances of '" + total + "' and '" + TypeName(limit) + "'")
  }

  /** `check_cost_limit` with a configured limit: a limit that is not a number cannot be compared. */
  function UnderLimit(records: seq<Record>, p: Period, limit: Value, now: int): (r: Result<bool, Exc>)
    ensures r.Failure? <==> Numeric(limit).None?
    ensures r.Failure? ==> r.error == NotComparable(records, p, limit, now)
    ensures r.Success? ==> (r.value <==> Spend(records, p, now) < Numeric(limit).value)
  {
    match Numeric(limit)
    case None => Failure(NotComparable(records, p, limit, now))
    case Some(x) =>
      assert ParsePeriod(PeriodName(p)) == Success(p);
      CheckCostLimit(records, PeriodName(p), x, now)
  }

  /**
   * The gate in front of every upstream call: the daily limit is checked
   * first, then the monthly one; `Success(None)` admits the call,
   * `Success(Some(reply))` refuses it with that reply.
   */
  function Admission(secrets: map<string, Value>, records: seq<Record>, now: int): (r: Result<Option<ToolReply>, Exc>)
    ensures r == Success(None) <==>
              Limits(secrets).Success? &&
              Numeric(Limits(secrets).value.0).Some? && Spend(records, Today, now) < Numeric(Limits(secrets).value.0).value &&
              Numeric(Limits(secrets).value.1).Some? && Spend(records, Month, now) < Numeric(Limits(secrets).value.1).value
    ensures Limits(secrets).Failure? ==> r == Failure(Limits(secrets).error)
    ensures Limits(secrets).Success? && Numeric(Limits(secrets).value.0).None? ==>
              r == Failure(NotComparable(records, Today, Limits(secrets).value.0, now))
    ensures Limits(secrets).Success? && Numeric(Limits(secrets).value.0).Some? &&
            Spend(records, Today, now) >= Numeric(Limits(secrets).value.0).value ==>
              r == Success(Some(LimitExceeded(DailyExceeded, Limits(secrets).value.0)))
    ensures Limits(secrets).Success? && Numeric(Limits(secrets).value.0).Some? &&
            Spend(records, Today, now) < Numeric(Limits(secrets).value.0).value &&
            Numeric(Limits(secrets).value.1).None? ==>
              r == Failure(NotComparable(records, Month, Limits(secrets).value.1, now))
    ensures Limits(secrets).Success? && Numeric(Limits(secrets).value.0).Some? &&
            Spend(records, Today, now) < Numeric(Limits(secrets).value.0).value &&
            Numeric(Limits(secrets).value.1).Some? &&
            Spend(records, Month, now) >= Numeric(Limits(secrets).value.1).value ==>
              r == Success(Some(LimitExceeded(MonthlyExceeded, Limits(secrets).value.1)))
  {
    match Limits(secrets)
    case Failure(e) => Failure(e)
    case Success((daily, monthly)) =>
      match UnderLimit(records, Today, daily, now)
      case Failure(e) => Failure(e)
      case Success(false) => Success(Some(LimitExceeded(DailyExceeded, daily)))
      case Success(true) =>
        match UnderLimit(records, Month, monthly, now)
        case Failure(e) => Failure(e)
        case Success(false) => Success(Some(LimitExceeded(MonthlyExceeded, monthly)))
        case Success(true) => Success(None)
  }

  /** Spend exactly equal to a daily limit of 10.0 refuses the call. */
  lemma SpendAtDailyLimitRefuses(secrets: map<string, Value>, records: seq<Record>, now: int)
    requires Limits(secrets).Success? && Limits(secrets).value.0 == Float(10.0)
    requires Spend(records, Today, now) == 10.0
    ensures Admission(secrets, records, now) == Success(Some(LimitExceeded(DailyExceeded, Float(10.0))))
  {
    assert UnderLimit(records, Today, Float(10.0), now) == Success(false);
  }

  /**
   * The configuration the loader produces has limits 10.0 and 50.0 unless
   * the secrets file sets `cost_limits`: the defaults supply the object.
   */
  lemma LoadedLimitsDefault(file: Option<map<string, Value>>, envApiKey: Option<string>, envWorkerModel: Option<string>)
    requires "cost_limits" !in Config.FileLayer(file)
    ensures Limits(Config.Merged(file, envApiKey, envWorkerModel)) == Success((Float(10.0), Float(50.0)))
  {
    var merged := Config.Merged(file, envApiKey, envWorkerModel);
    assert "cost_limits" !in Config.Overridden(envApiKey, envWorkerModel);
    assert merged["cost_limits"] == Config.Defaults["cost_limits"];
  }

  // ---------------------------------------------------------------------
  // one tool call, as a specification

  /** The ledger row a completed call adds. */
  function LoggedRecord(records: seq<Record>, kind: Kind, args: Arguments, res: ToolResult, now: int): Record
  {
    Record(NextId(records), now, KindName(kind), res.costUsd, res.inputTokens, res.outputTokens,
           Lookup(args.fields, "file_path"))
  }

  /** `_handle_deepseek_call`: gate, then call, catch and log. */
  function DeepSeekStep(secrets: map<string, Value>, s: Settings, closed: bool, records: seq<Record>,
                        kind: Kind, args: Arguments, w: World): (step: Step)
    ensures step.request.Some? ==> Admission(secrets, records, w.now) == Success(None)
    ensures step.outcome.Returned? && step.outcome.reply.Completed? ==>
              step.ledger == records + [LoggedRecord(records, kind, args, step.outcome.reply.result, w.now)]
    ensures !(step.outcome.Returned? && step.outcome.reply.Completed?) ==> step.ledger == records
    ensures Admission(secrets, records, w.now).Failure? ==>
              step == Step(Raised(Admission(secrets, records, w.now).error), None, records)
    ensures Admission(secrets, records, w.now).Success? && Admission(secrets, records, w.now).value.Some? ==>
              step == Step(Returned(Admission(secrets, records, w.now).value.value), None, records)
    ensures Admission(secrets, records, w.now) == Success(None) ==> step == CallStep(s, closed, records, kind, args, w)
  {
    match Admission(secrets, records, w.now)
    case Failure(e) => Step(Raised(e), None, records)
    case Success(Some(refusal)) => Step(Returned(refusal), None, records)
    case Success(None) => CallStep(s, closed, records, kind, args, w)
  }

  /**
   * An admitted call: the client's ValueError and RuntimeError become an
   * error reply, any other exception escapes; a completed call is logged,
   * and a failed insert escapes after the payload went out.
   */
  function CallStep(s: Settings, closed: bool, records: seq<Record>, kind: Kind, args: Arguments, w: World): (step: Step)
    ensures step.request == CallSpec(s, closed, args, kind, w.reply).request
    ensures step.outcome.Returned? && step.outcome.reply.Completed? <==>
              CallSpec(s, closed, args, kind, w.reply).result.Success? && w.ledgerWritable
    ensures step.outcome.Returned? && step.outcome.reply.Completed? ==>
              step.ledger == records + [LoggedRecord(records, kind, args, step.outcome.reply.result, w.now)]
    ensures !(step.outcome.Returned? && step.outcome.reply.Completed?) ==> step.ledger == records
    ensures step.outcome.Returned? && step.outcome.reply.Completed? ==>
              step.outcome.reply.result == CallSpec(s, closed, args, kind, w.reply).result.value
    ensures CallSpec(s, closed, args, kind, w.reply).result.Failure? ==>
              step.outcome == Caught(CallSpec(s, closed, args, kind, w.reply).result.error)
    ensures CallSpec(s, closed, args, kind, w.reply).result.Success? && !w.ledgerWritable ==>
              step.outcome == Raised(StorageError(LedgerReadOnly))
  {
    var t := CallSpec(s, closed, args, kind, w.reply);
    match t.result
    case Failure(e) => Step(Caught(e), t.request, records)
    case Success(res) =>
      if !w.ledgerWritable then Step(Raised(StorageError(LedgerReadOnly)), t.request, records)
      else Step(Returned(Completed(res)), t.request, records + [LoggedRecord(records, kind, args, res, w.now)])
  }

  /** `_handle_cost_report`: the period defaults to today; an invalid one escapes the handler. */
  function CostReportOutcome(records: seq<Record>, args: Arguments, now: int): (o: Outcome)
    ensures o.Raised? <==> Get(args.fields, "period", "today") !in ValidPeriods
    ensures o.Raised? ==> o.exc == ValueError(InvalidPeriodMessage(args.fields["period"]))
    ensures o.Returned? ==>
              var p := ParsePeriod(Get(args.fields, "period", "today"));
              p.Success? && o.reply == ReportText(Aggregate(records, WindowStart(p.value, now), Lookup(args.fields, "tool")))
  {
    match GetReport(records, Get(args.fields, "period", "today"), Lookup(args.fields, "tool"), now)
    case Failure(e) => Raised(e)
    case Success(report) => Returned(ReportText(report))
  }

  /** Without a period, the report covers today. */
  lemma ReportDefaultsToToday(records: seq<Record>, args: Arguments, now: int)
    requires "period" !in args.fields
    ensures CostReportOutcome(records, args, now) ==
            Returned(ReportText(Aggregate(records, WindowStart(Today, now), Lookup(args.fields, "tool"))))
  {
    assert ParsePeriod("today") == Success(Today);
  }

  /**
   * `_handle_tool_call`: the three DeepSeek tools go through the gate, the
   * report tool reads the ledger, any other name is answered with an error.
   */
  function ToolStep(secrets: map<string, Value>, s: Settings, closed: bool, records: seq<Record>,
                    name: string, args: Arguments, w: World): (step: Step)
    ensures step.request.Some? ==> RouteOf(name).ToDeepSeek? && Admission(secrets, records, w.now) == Success(None)
    ensures step.ledger != records ==>
              RouteOf(name).ToDeepSeek? && step.outcome.Returned? && step.outcome.reply.Completed? &&
              step.ledger == records + [LoggedRecord(records, RouteOf(name).kind, args, step.outcome.reply.result, w.now)]
    ensures RouteOf(name).ToDeepSeek? ==> step == DeepSeekStep(secrets, s, closed, records, RouteOf(name).kind, args, w)
    ensures RouteOf(name).ToReport? ==> step == Step(CostReportOutcome(records, args, w.now), None, records)
    ensures RouteOf(name).Unknown? ==> step.outcome == Returned(ErrorText("Unknown tool: " + name))
  {
    match RouteOf(name)
    case ToDeepSeek(kind) => DeepSeekStep(secrets, s, closed, records, kind, args, w)
    case ToReport => Step(CostReportOutcome(records, args, w.now), None, records)
    case Unknown => Step(Returned(ErrorText("Unknown tool: " + name)), None, records)
  }

  // ---------------------------------------------------------------------
  // properties of a tool call

  /** A name outside the four tools is answered with an error and touches nothing. */
  lemma UnknownToolIsInert(secrets: map<string, Value>, s: Settings, closed: bool, records: seq<Record>,
                           name: string, args: Arguments, w: World)
    requires name !in ToolNames
    ensures ToolStep(secrets, s, closed, records, name, args, w) ==
            Step(Returned(ErrorText("Unknown tool: " + name)), None, records)
  {
  }

  /** The report tool sends nothing upstream and leaves the ledger as it is. */
  lemma ReportIsReadOnly(secrets: map<string, Value>, s: Settings, closed: bool, records: seq<Record>,
                         args: Arguments, w: World)
    ensures ToolStep(secrets, s, closed, records, "get_cost_report", args, w).request == None
    ensures ToolStep(secrets, s, closed, records, "get_cost_report", args, w).ledger == records
  {
  }

  /**
   * Budget enforcement: a payload goes out only when the configured limits
   * are numbers and both the day's and the month's spend are strictly
   * below them.
   */
  lemma RequestOnlyUnderBothLimits(secrets: map<string, Value>, s: Settings, closed: bool, records: seq<Record>,
                                   name: string, args: Arguments, w: World)
    requires ToolStep(secrets, s, closed, records, name, args, w).request.Some?
    ensures name in {"generate_code", "edit_code", "review_code"}
    ensures Limits(secrets).Success?
    ensures var (daily, monthly) := Limits(secrets).value;
            Numeric(daily).Some? && Spend(records, Today, w.now) < Numeric(daily).value &&
            Numeric(monthly).Some? && Spend(records, Month, w.now) < Numeric(monthly).value
  {
    var kind := RouteOf(name).kind;
    assert ToolStep(secrets, s, closed, records, name, args, w) == DeepSeekStep(secrets, s, closed, records, kind, args, w);
  }

  /**
   * The ledger changes only on a completed call, by exactly one record
   * carrying the call's tool name, cost and token counts; a refused,
   * failed or unknown call leaves it as it was.
   */
  lemma LedgerGrowsOnlyOnCompletion(secrets: map<string, Value>, s: Settings, closed: bool, records: seq<Record>,
                                    name: string, args: Arguments, w: World)
    ensures var step := ToolStep(secrets, s, closed, records, name, args, w);
            step.outcome.Returned? && step.outcome.reply.Completed? ==> step.ledger != records
    ensures var step := ToolStep(secrets, s, closed, records, name, args, w);
            step.ledger == records ||
            (step.outcome.Returned? && step.outcome.reply.Completed? && |step.ledger| == |records| + 1 &&
             step.ledger[..|records|] == records &&
             step.ledger[|records|].toolName == name &&
             step.ledger[|records|].costUsd == step.outcome.reply.result.costUsd &&
             step.ledger[|records|].inputTokens == step.outcome.reply.result.inputTokens &&
             step.ledger[|records|].outputTokens == step.outcome.reply.result.outputTokens &&
             step.ledger[|records|].timestamp == w.now)
  {
    var step := ToolStep(secrets, s, closed, records, name, args, w);
    if RouteOf(name).ToDeepSeek? {
      var kind := RouteOf(name).kind;
      assert step == DeepSeekStep(secrets, s, closed, records, kind, args, w);
      if step.ledger != records {
        assert step.ledger[..|records|] == records;
      }
    }
  }

  /** Every completed call was sent upstream, and a call whose reply is billed was answered with a 2xx. */
  lemma CompletedCallsWereSent(secrets: map<string, Value>, s: Settings, closed: bool, records: seq<Record>,
                               name: string, args: Arguments, w: World)
    requires ToolStep(secrets, s, closed, records, name, args, w).outcome.Returned?
    requires ToolStep(secrets, s, closed, records, name, args, w).outcome.reply.Completed?
    ensures ToolStep(secrets, s, closed, records, name, args, w).request.Some?
    ensures !closed && w.ledgerWritable
    ensures w.reply.Response? && IsSuccessStatus(w.reply.status)
  {
    var kind := RouteOf(name).kind;
    assert ToolStep(secrets, s, closed, records, name, args, w) == DeepSeekStep(secrets, s, closed, records, kind, args, w);
  }

  /** A completed call raises the day's unrounded spend by exactly its cost. */
  lemma CompletedCallAddsItsCost(secrets: map<string, Value>, s: Settings, closed: bool, records: seq<Record>,
                                 name: string, args: Arguments, w: World)
    requires ToolStep(secrets, s, closed, records, name, args, w).outcome.Returned?
    requires ToolStep(secrets, s, closed, records, name, args, w).outcome.reply.Completed?
    ensures var step := ToolStep(secrets, s, closed, records, name, args, w);
            SumCost(Select(step.ledger, WindowStart(Today, w.now), None)) ==
            SumCost(Select(records, WindowStart(Today, w.now), None)) + step.outcome.reply.result.costUsd
  {
    var step := ToolStep(secrets, s, closed, records, name, args, w);
    LedgerGrowsOnlyOnCompletion(secrets, s, closed, records, name, args, w);
    var r := step.ledger[|records|];
    assert step.ledger == records + [r];
    AppendAddsSpend(records, r, WindowStart(Today, w.now), None);
  }

  /** Errors the client raises as ValueError or RuntimeError come back as an error reply with their text. */
  lemma ClientErrorsAreReported(secrets: map<string, Value>, s: Settings, closed: bool, records: seq<Record>,
                                kind: Kind, args: Arguments, w: World)
    requires Admission(secrets, records, w.now) == Success(None)
    requires CallSpec(s, closed, args, kind, w.reply).result.Failure?
    requires CallSpec(s, closed, args, kind, w.reply).result.error.ValueError? ||
             CallSpec(s, closed, args, kind, w.reply).result.error.RuntimeError?
    ensures ToolStep(secrets, s, closed, records, KindName(kind), args, w) ==
            Step(Returned(ErrorText(Message(CallSpec(s, closed, args, kind, w.reply).result.error))),
                 CallSpec(s, closed, args, kind, w.reply).request, records)
  {
    assert RouteOf(KindName(kind)) == ToDeepSeek(kind);
  }

  // ---------------------------------------------------------------------
  // the server object

  /** The configuration the server runs with: the one given, unless it is missing or empty. */
  function EffectiveSecrets(given: Option<map<string, Value>>, file: Option<map<string, Value>>,
                            envApiKey: Option<string>, envWorkerModel: Option<string>): (r: map<string, Value>)
    ensures given.Some? && given.value != map[] ==> r == given.value
    ensures given.None? || given.value == map[] ==> r == Config.Merged(file, envApiKey, envWorkerModel)
  {
    if given.Some? && given.value != map[] then given.value else Config.Merged(file, envApiKey, envWorkerModel)
  }

  class GroveCoderServer {
    const secrets: map<string, Value>
    const deepseek: DeepSeekClient
    const db: CostDatabase

    ghost predicate Valid()
      reads this, db
    {
      db.Valid()
    }

    constructor(secrets: map<string, Value>, deepseek: DeepSeekClient, db: CostDatabase)
      requires db.Valid()
      ensures Valid()
      ensures this.secrets == secrets && this.deepseek == deepseek && this.db == db
    {
      this.secrets := secrets;
      this.deepseek := deepseek;
      this.db := db;
    }

    /**
     * Construction: resolve the configuration, open the client (which
     * refuses a configuration without a credential) and open the ledger.
     */
    static method Create(given: Option<map<string, Value>>, file: Option<map<string, Value>>,
                         envApiKey: Option<string>, envWorkerModel: Option<string>, existing: seq<Record>)
      returns (r: Result<GroveCoderServer, Exc>)
      requires IdsIncreasing(existing)
      ensures var secrets := EffectiveSecrets(given, file, envApiKey, envWorkerModel);
              (r.Failure? <==> Configure(secrets).Failure?) &&
              (r.Failure? ==> r.error == ValueError(ApiKeyRequired)) &&
              (r.Success? ==> fresh(r.value) && fresh(r.value.deepseek) && fresh(r.value.db) && r.value.Valid() &&
                              r.value.secrets == secrets && r.value.db.records == existing &&
                              r.value.deepseek.settings == Configure(secrets).value &&
                              !r.value.deepseek.closed && r.value.deepseek.sent == [] && r.value.deepseek.closeCalls == 0)
    {
      var secrets: map<string, Value>;
      if given.Some? && given.value != map[] {
        secrets := given.value;
      } else {
        secrets := Config.LoadSecrets(file, envApiKey, envWorkerModel);
      }
      var client := DeepSeekClient.Open(secrets);
      if client.Failure? {
        return Failure(client.error);
      }
      var db := new CostDatabase(existing);
      var server := new GroveCoderServer(secrets, client.value, db);
      return Success(server);
    }

    /** Route one tool call. */
    method HandleToolCall(name: string, args: Arguments, w: World) returns (out: Outcome)
      requires Valid()
      modifies db, deepseek
      ensures Valid()
      ensures var step := ToolStep(secrets, deepseek.settings, old(deepseek.closed), old(db.records), name, args, w);
              out == step.outcome && db.records == step.ledger &&
              deepseek.sent == old(deepseek.sent) + (if step.request.Some? then [step.request.value] else [])
      ensures deepseek.closed == old(deepseek.closed) && deepseek.closeCalls == old(deepseek.closeCalls)
    {
      match RouteOf(name) {
        case ToDeepSeek(kind) =>
          out := HandleDeepSeekCall(kind, args, w);
        case ToReport =>
          out := HandleCostReport(args, w.now);
        case Unknown =>
          out := Returned(ErrorText("Unknown tool: " + name));
      }
    }

    /** Gate on the limits, then call the client and log. */
    method HandleDeepSeekCall(kind: Kind, args: Arguments, w: World) returns (out: Outcome)
      requires Valid()
      modifies db, deepseek
      ensures Valid()
      ensures var step := DeepSeekStep(secrets, deepseek.settings, old(deepseek.closed), old(db.records), kind, args, w);
              out == step.outcome && db.records == step.ledger &&
              deepseek.sent == old(deepseek.sent) + (if step.request.Some? then [step.request.value] else [])
      ensures deepseek.closed == old(deepseek.closed) && deepseek.closeCalls == old(deepseek.closeCalls)
    {
      var admission := Admission(secrets, db.records, w.now);
      if admission.Failure? {
        return Raised(admission.error);
      }
      if admission.value.Some? {
        return Returned(admission.value.value);
      }
      out := CallAndLog(kind, args, w);
    }

    /** Call the client, report its errors, log a completed call. */
    method CallAndLog(kind: Kind, args: Arguments, w: World) returns (out: Outcome)
      requires Valid()
      modifies db, deepseek
      ensures Valid()
      ensures var step := CallStep(deepseek.settings, old(deepseek.closed), old(db.records), kind, args, w);
              out == step.outcome && db.records == step.ledger &&
              deepseek.sent == old(deepseek.sent) + (if step.request.Some? then [step.request.value] else [])
      ensures deepseek.closed == old(deepseek.closed) && deepseek.closeCalls == old(deepseek.closeCalls)
    {
      ghost var records := db.records;
      ghost var t := CallSpec(deepseek.settings, deepseek.closed, args, kind, w.reply);
      ghost var step := CallStep(deepseek.settings, deepseek.closed, records, kind, args, w);
      var result := deepseek.Call(args, kind, w.reply);
      assert result == t.result;
      if result.Failure? {
        assert step == Step(Caught(result.error), t.request, records);
        return Caught(result.error);
      }
      out := LogCompleted(kind, args, result.value, w);
      assert step == Step(out, t.request, db.records);
    }

    /** Log a completed call and return its result; a failed insert escapes. */
    method LogCompleted(kind: Kind, args: Arguments, res: ToolResult, w: World) returns (out: Outcome)
      requires Valid()
      modifies db
      ensures Valid()
      ensures w.ledgerWritable ==>
                out == Returned(Completed(res)) && db.records == old(db.records) + [LoggedRecord(old(db.records), kind, args, res, w.now)]
      ensures !w.ledgerWritable ==> out == Raised(StorageError(LedgerReadOnly)) && db.records == old(db.records)
    {
      var tokens := map["input" := res.inputTokens, "output" := res.outputTokens];
      assert Get(tokens, "input", 0) == res.inputTokens && Get(tokens, "output", 0) == res.outputTokens;
      var ok := db.LogRequest(KindName(kind), res.costUsd, tokens, Lookup(args.fields, "file_path"), w.now, w.ledgerWritable);
      if !ok {
        return Raised(StorageError(LedgerReadOnly));
      }
      return Returned(Completed(res));
    }

    /** Answer a report query from the ledger. */
    method HandleCostReport(args: Arguments, now: int) returns (out: Outcome)
      ensures out == CostReportOutcome(db.records, args, now)
    {
      var period := Get(args.fields, "period", "today");
      var report := GetReport(db.records, period, Lookup(args.fields, "tool"), now);
      if report.Failure? {
        return Raised(report.error);
      }
      return Returned(ReportText(report.value));
    }

    /** Release the client's connection. */
    method Cleanup()
      modifies deepseek
      ensures deepseek.closed && deepseek.closeCalls == old(deepseek.closeCalls) + 1
      ensures deepseek.sent == old(deepseek.sent)
    {
      deepseek.Close();
    }
  }
}
