# GroveCoder cost governance, in Dafny

GroveCoder is an MCP server. It lets an orchestrating model hand code
generation, editing and review to a DeepSeek model reached through
OpenRouter, and it meters every such call against daily and monthly
spend limits. This project models the part of the server that governs
cost. It has five modules:

- **Config** (`config.dfy`): the configuration merge of `load_secrets`.
  - The secrets file (when present) is the base.
  - `OPENROUTER_API_KEY` and `GROVE_CODER_WORKER_MODEL` override it when they are set to a non-empty value.
  - The built-in `DEFAULTS` fill only the keys that are still missing.
  - `LoadSecrets` is a method with the same in-place updates and the same loop over the defaults. It is proved equal to the pure merge `Merged`.
- **Database** (`database.dfy`): the cost ledger.
  - `CostDatabase` holds the `requests` table as a sequence of records that `LogRequest` appends to.
  - The report is a function of that sequence and a window start. It selects rows, groups them by (day, tool), orders them newest day first, sums them and rounds with `round(x, 6)`.
  - The proofs relate every breakdown entry and total to plain counts and sums over the selected records.
  - `CheckCostLimit` is the strict `<` comparison against the rounded total.
- **DeepSeek** (`deepseek.dfy`): the upstream client.
  - The client checks input sizes (two size classes, large fields first).
  - It picks the instruction prompt and builds the user prompt.
  - It sends the request payload.
  - It prices the call at $0.25 and $0.38 per million prompt and completion tokens.
  - It classifies the upstream reply into a result or an exception.
  - `DeepSeekClient.Call` is the method. It is proved against the specification function `CallSpec` and records every payload that went out in `sent`.
- **Server** (`server.dfy`): the request broker.
  - The four advertised tools.
  - Routing by tool name.
  - The daily-then-monthly spend gate.
  - The exception boundary around the client.
  - Exactly one ledger append per completed call.
  - The handlers of `GroveCoderServer` are methods proved equal to the per-call specification `ToolStep`. The properties of a call (budget enforcement, the ledger only growing on completion, unknown tools being inert) are lemmas about that specification.
- **Common** (`common.dfy`): the Python behaviour the core relies on.
  - Exceptions and what `str(e)` shows.
  - JSON values and their truthiness.
  - `dict.get`.
  - `round(x, 6)`, whose ties go to the even neighbour.
  - `str(n)` and its inverse.
  - `str.join`.

One tool call runs against a `World`, which gives three inputs:

- the current time;
- what the network and the remote API answer;
- whether the ledger store accepts a write.

The configuration file's contents and the two environment variables are parameters of `Config.LoadSecrets`.

Four behaviours are modelled as the code has them:

- A spend exactly equal to a limit blocks the call.
- A completion without a `"code"` key yields `""`.
- An invalid report period escapes the report handler as a `ValueError`.
- A failed ledger insert after a successful upstream call escapes the call handler.

The pricing follows the rates in `_calculate_cost`. One million prompt tokens plus one million completion tokens cost 0.63, not the 0.70 that `src/tests/test_deepseek.py:36-41` expects (`DeepSeek.CostExamples`).

## Model

| member | source | states |
|---|---|---|
| Common.Round6 | src/grove_coder/database.py:101 | `round(x, 6)` gives a whole number of micro-dollars within half a micro-dollar of `x` |
| Common.Round6Monotone | src/grove_coder/deepseek.py:202 | rounding to 6 decimals never reverses the order of two amounts |
| Common.Join | src/grove_coder/deepseek.py:173 | `sep.join(parts)` starts with the first part |
| Common.JoinContainsPart | src/grove_coder/deepseek.py:173 | every part occurs in the joined string |
| Config.EnvLayer | src/grove_coder/config.py:41-48 | the keys after the environment layer are the file's keys plus the ones a non-empty variable overrides |
| Config.FillMissing | src/grove_coder/config.py:50-53 | keys already present keep their values; every default key is added when it is missing, and no other key is added |
| Config.Merged | src/grove_coder/config.py:21-55 | a non-empty environment value wins over the file; a file value wins over the default; the result holds every default key; the credential is present iff the file or the environment supplies it |
| Config.LoadSecrets | src/grove_coder/config.py:29-55 | the in-place loader yields exactly the layered merge |
| Config.AddDefaults | src/grove_coder/config.py:50-53 | the loop over the defaults inserts exactly the missing keys |
| Config.DefaultsOmitApiKey | src/grove_coder/config.py:9-18 | the defaults never supply `openrouter_api_key` |
| Config.MissingFileLeavesKeyToEnvironment | src/grove_coder/config.py:34-44 | without a file, the credential is present iff `OPENROUTER_API_KEY` is set and non-empty |
| Database.ParsePeriod | src/grove_coder/database.py:65-67 | a period is accepted iff it is one of today, week, month, all; otherwise a ValueError naming the period and listing the four |
| Database.WindowStart | src/grove_coder/database.py:69-76 | today starts at the midnight of the current day (a multiple of a day, at most `now`, less than a day before it); week and month start exactly 7 and 30 days before `now`; all starts at the epoch |
| Database.WindowsNest | src/grove_coder/database.py:69-76 | the window starts nest: all ≤ month ≤ week ≤ today ≤ now |
| Database.NextId | src/grove_coder/database.py:23 | the autoincrement id exceeds every id in the table and is one past the last one |
| Database.CostDatabase.constructor | src/grove_coder/database.py:14-16 | opening the store keeps the rows it already holds |
| Database.CostDatabase.LogRequest | src/grove_coder/database.py:34-54 | a successful insert appends exactly one row: the next id, the current time, the tool name, the cost and the file path, with missing token counts stored as 0; earlier rows are unchanged; a failed insert changes nothing |
| Database.Select | src/grove_coder/database.py:78-87 | every selected row is at or after the window start and matches an active tool filter, and there are no more of them than rows in the table |
| Database.SelectKeepsMatching | src/grove_coder/database.py:78-87 | a row is selected iff it is in the table and matches the window and the filter; the selection is a sub-multiset of the table, so no row is duplicated or invented |
| Database.FilterSelects | src/grove_coder/database.py:85-87 | a non-empty filter keeps only that tool's rows; no filter and an empty filter select the same rows |
| Database.LaterStartSelectsLess | src/grove_coder/database.py:78-83 | a later window start selects no more rows and, when no cost is negative, no more spend |
| Database.AddRow | src/grove_coder/database.py:89 | grouping one more row keeps the groups ordered by day, newest first |
| Database.Group | src/grove_coder/database.py:89 | the grouped rows are ordered by day, newest first |
| Database.AddRowTotals | src/grove_coder/database.py:89 | grouping one more row raises the total count by one and the total cost by that row's cost |
| Database.AddRowKeys | src/grove_coder/database.py:89 | grouping one more row changes the count and cost of its own (day, tool) only |
| Database.AddRowOrigin | src/grove_coder/database.py:89 | every group after adding a row is that row's key or a key that was there before |
| Database.DistinctCons | src/grove_coder/database.py:89 | a group in front of others keeps the keys distinct iff its key is new |
| Database.AddRowShape | src/grove_coder/database.py:89 | grouping one more row keeps one group per (day, tool) and every count positive |
| Database.GroupFacts | src/grove_coder/database.py:79-97 | the grouped rows have distinct keys and positive counts; per key they hold the number and summed cost of the selected rows with that key; their counts add up to the number of rows and their costs to the total cost |
| Database.RowIsWholeKey | src/grove_coder/database.py:89 | with distinct keys, a group's count and cost are everything its key has |
| Database.Entries | src/grove_coder/database.py:102-110 | one breakdown entry per group, with the cost rounded to 6 decimals; the entries' counts sum to the groups' counts |
| Database.Aggregate | src/grove_coder/database.py:78-111 | total_requests counts the selected rows; total_cost_usd is their summed cost rounded once; the breakdown is sorted by date descending, has one entry per (date, tool) and a positive count, and each entry holds that key's count and rounded cost; the entries' counts sum to total_requests |
| Database.GetReport | src/grove_coder/database.py:56-111 | an invalid period raises ValueError before any query; a valid one reports over its window |
| Database.Spend | src/grove_coder/database.py:113-119 | the spend compared against a limit is exactly `total_cost_usd` of the unfiltered report for the period, which succeeds for every period |
| Database.SpendNonNegative | src/grove_coder/database.py:96-101 | with no negative cost in the ledger, the spend of every period is at least 0 |
| Database.SumCostNonNegative | src/grove_coder/database.py:96 | a sum of non-negative costs is non-negative |
| Database.CheckCostLimit | src/grove_coder/database.py:113-119 | true iff the period's rounded spend is strictly below the limit, so spend equal to the limit gives false; an invalid period raises |
| Database.EmptyLedgerReport | src/grove_coder/database.py:96-111 | an empty ledger reports 0 requests, 0.0 dollars and an empty breakdown |
| Database.PeriodTotalsNest | src/grove_coder/database.py:69-101 | the totals for today, week, month and all never shrink in that order |
| Database.WholeTableSelected | src/grove_coder/database.py:76-81 | a window that every row falls in selects the whole table |
| Database.AllReportCountsEveryCall | src/grove_coder/database.py:75-101 | the "all" report counts every logged row and the rounded sum of all costs |
| Database.AppendAddsSpend | src/grove_coder/database.py:96 | appending a row adds its cost to the unrounded spend of every window and filter it matches |
| DeepSeek.FirstTooLong | src/grove_coder/deepseek.py:141-149 | finds the first field, in checking order, that is present, non-empty and longer than the limit; none iff all fields pass |
| DeepSeek.ValidationError | src/grove_coder/deepseek.py:139-149 | no error iff no field exceeds its class's limit (a length exactly at the limit passes); a too-long large field is reported before any short one; within a class the first too-long field in checking order is named, with its limit |
| DeepSeek.ValidateInputs | src/grove_coder/deepseek.py:139-149 | the two loops raise exactly the validation error |
| DeepSeek.SystemPrompt | src/grove_coder/deepseek.py:151-162 | each code tool gets its own template and any other name the generic one; a review template has focus areas unless an empty list was given |
| DeepSeek.SystemPromptChoice | src/grove_coder/deepseek.py:151-162 | generation uses the requested language, python by default; review uses the given focus areas, and the default three only when the key is absent; edit uses its constant text; any other tool gets the generic assistant prompt |
| DeepSeek.InstructionTextNamesValues | src/grove_coder/deepseek.py:17-51 | the rendered generate prompt contains the language; the review prompt contains the joined focus areas |
| DeepSeek.PromptLines | src/grove_coder/deepseek.py:164-187 | the lines of each user prompt, in order; optional lines appear iff their argument is non-empty (the focus line iff the list is non-empty) |
| DeepSeek.FirstMissing | src/grove_coder/deepseek.py:167-184 | finds the first directly indexed argument that is missing; none iff all are present |
| DeepSeek.UserPrompt | src/grove_coder/deepseek.py:164-187 | fails iff a directly indexed argument is missing, with the KeyError of the first one; otherwise the lines joined by newlines |
| DeepSeek.GeneratePromptMentions | src/grove_coder/deepseek.py:166-173 | the generation prompt contains the task and the language |
| DeepSeek.EditPromptMentions | src/grove_coder/deepseek.py:175-181 | the edit prompt contains the original code and the change request |
| DeepSeek.ReviewPromptMentions | src/grove_coder/deepseek.py:183-187 | the review prompt contains the code |
| DeepSeek.TokenCost | src/grove_coder/deepseek.py:191-202 | the cost of a call is never negative |
| DeepSeek.CalculateCost | src/grove_coder/deepseek.py:191-202 | the cost is the token price of the usage block's counts, with a missing count taken as 0; it is never negative, and an empty usage block costs 0 |
| DeepSeek.CostMonotone | src/grove_coder/deepseek.py:196-202 | more tokens of either kind never cost less |
| DeepSeek.CostExamples | src/grove_coder/deepseek.py:196-202 | 1M prompt tokens cost 0.25 and 1M completion tokens 0.38, so 1M of each costs exactly 0.63 (not 0.70); an empty usage block costs 0.0 |
| DeepSeek.Configure | src/grove_coder/deepseek.py:59-67 | a missing or falsy credential raises the ValueError; otherwise the model, retention flag and providers come from the configuration or default to deepseek/deepseek-v3.2, true and [] |
| DeepSeek.StatusMessageNamesStatus | src/grove_coder/deepseek.py:109-111 | the status error message carries the status code, which reads back from it |
| DeepSeek.Classify | src/grove_coder/deepseek.py:106-137 | a network failure, a non-2xx status (code only, no body) and missing or non-JSON content map to their RuntimeErrors; a body that is not JSON gives the decoder's ValueError; content that is not a string gives the TypeError of `json.loads`; JSON content that is not an object gives the AttributeError of `.get`; success iff a 2xx reply carries a JSON object; then code and explanation default to "", suggestions to [], tokens to 0, and the cost is the priced usage |
| DeepSeek.CallSpec | src/grove_coder/deepseek.py:82-137 | validation runs first and its error stops the call; a missing required argument stops it with that KeyError and nothing sent; a payload goes out iff validation and the user prompt succeed and the client is open; the result of a sent request is the classified reply; a success was always sent |
| DeepSeek.BuildPayload | src/grove_coder/deepseek.py:89-104 | the payload carries the client's model, provider order and retention flag and asks for a json_object response; reasoning is on iff the tool is review_code |
| DeepSeek.SentPayload | src/grove_coder/deepseek.py:86-104 | the payload carries the configured model, provider order and retention flag, a json_object response format, the instructions and then the user prompt; reasoning is on iff the tool is review_code |
| DeepSeek.DeepSeekClient.constructor | src/grove_coder/deepseek.py:64-76 | a new client is open and has sent nothing |
| DeepSeek.DeepSeekClient.Open | src/grove_coder/deepseek.py:59-67 | construction fails exactly when the configuration has no usable credential |
| DeepSeek.DeepSeekClient.Close | src/grove_coder/deepseek.py:78-80 | the connection is released, once more per call, and nothing is sent |
| DeepSeek.DeepSeekClient.Call | src/grove_coder/deepseek.py:82-137 | returns the specified result and appends to `sent` exactly the payload that went out, if any |
| Server.ToolList | src/grove_coder/server.py:18-111 | exactly the four tools generate_code, edit_code, review_code and get_cost_report; every required key is a declared property |
| Server.ReportSchemaOffersValidPeriods | src/grove_coder/server.py:97-101 | the report schema's period enumeration is exactly the periods the ledger accepts |
| Server.SchemaRequiredSuffices | src/grove_coder/server.py:18-91 | arguments with every key a code tool's schema requires always yield a user prompt |
| Server.RouteOf | src/grove_coder/server.py:139-149 | the three code tools go upstream, get_cost_report goes to the report, and every other name is unknown |
| Server.Caught | src/grove_coder/server.py:182-191 | a ValueError or RuntimeError becomes an error reply with its text; every other exception escapes |
| Server.Limits | src/grove_coder/server.py:156-158 | each limit is the configured `daily_usd` / `monthly_usd` entry of `cost_limits` when present and 10.0 / 50.0 otherwise, and both defaults apply without `cost_limits`; a `cost_limits` entry that is not an object raises the AttributeError of `.get` on its type |
| Server.LoadedLimitsDefault | src/grove_coder/server.py:156-158 | a configuration loaded from a secrets file without `cost_limits` has limits 10.0 daily and 50.0 monthly |
| Server.UnderLimit | src/grove_coder/server.py:160-171 | a non-numeric limit raises the TypeError of `<` between the total (`int` over no rows, `float` otherwise) and the limit's type; otherwise true iff the period's rounded spend is strictly below it |
| Server.Admission | src/grove_coder/server.py:155-180 | a call is admitted iff both limits are numbers and the day's and the month's spend are strictly below them; a bad `cost_limits` raises its AttributeError; a non-numeric daily limit raises its TypeError before anything else; a daily spend at or over the limit is refused with the daily reply and the daily limit; only after the daily check passes does a non-numeric monthly limit raise, or a monthly spend at or over it refuse with the monthly reply and the monthly limit |
| Server.SpendAtDailyLimitRefuses | src/grove_coder/server.py:156-169 | under any configuration whose daily limit is 10.0, a day's spend of exactly 10.0 is refused with "Daily cost limit exceeded" |
| Server.DeepSeekStep | src/grove_coder/server.py:151-201 | a failed gate escapes as its exception and a refusal is returned, both without a request and with the ledger unchanged; an admitted call is exactly the client call and log; a payload goes out only after admission; a completed call appends exactly its record |
| Server.CallStep | src/grove_coder/server.py:182-201 | the request is the client's; a client error is caught as an error reply (ValueError, RuntimeError) or escapes (other exceptions); a successful call with a failing insert escapes as the storage error; a completed reply carries the client's result and appends exactly its record; otherwise the ledger is unchanged |
| Server.CostReportOutcome | src/grove_coder/server.py:203-208 | an invalid period escapes as ValueError; otherwise the reply is the report aggregated over that period's window with the given tool filter |
| Server.ToolStep | src/grove_coder/server.py:135-149 | the three code tools take exactly the gated DeepSeek step; only a DeepSeek tool admitted by the gate sends a request, and only a completed DeepSeek call changes the ledger, by appending its record; get_cost_report is the read-only report step; any other name is answered "Unknown tool: <name>" |
| Server.ReportDefaultsToToday | src/grove_coder/server.py:205-207 | without a period the report covers today |
| Server.UnknownToolIsInert | src/grove_coder/server.py:143-149 | an unknown name gets "Unknown tool: <name>", sends nothing and leaves the ledger as it is |
| Server.ReportIsReadOnly | src/grove_coder/server.py:141-142 | the report tool sends nothing and leaves the ledger as it is |
| Server.RequestOnlyUnderBothLimits | src/grove_coder/server.py:139-183 | a payload goes out only for a code tool whose limits are numbers, with the day's and the month's spend strictly below them |
| Server.LedgerGrowsOnlyOnCompletion | src/grove_coder/server.py:135-201 | the ledger is unchanged, or the call completed and exactly one record was appended with the tool's name, the result's cost and token counts and the current time |
| Server.CompletedCallsWereSent | src/grove_coder/server.py:182-201 | a completed call went out through an open client, got a 2xx reply and was written to the ledger |
| Server.CompletedCallAddsItsCost | src/grove_coder/server.py:193-199 | a completed call raises the day's unrounded spend by exactly its cost |
| Server.ClientErrorsAreReported | src/grove_coder/server.py:182-191 | an admitted call whose client raises ValueError or RuntimeError returns that error's text and leaves the ledger as it is |
| Server.EffectiveSecrets | src/grove_coder/server.py:117-118 | a given non-empty configuration is used as is; otherwise the configuration is loaded |
| Server.GroveCoderServer.constructor | src/grove_coder/server.py:117-120 | the server keeps its configuration, client and ledger |
| Server.GroveCoderServer.Create | src/grove_coder/server.py:117-122 | construction fails iff the effective configuration has no usable credential; otherwise the client is open and the ledger holds the existing rows |
| Server.GroveCoderServer.HandleToolCall | src/grove_coder/server.py:135-149 | the reply, the new ledger and the payloads sent are exactly those of the call's specification |
| Server.GroveCoderServer.HandleDeepSeekCall | src/grove_coder/server.py:151-180 | the gate, then the call: its outcome and effects are those of the specification |
| Server.GroveCoderServer.CallAndLog | src/grove_coder/server.py:182-201 | calling the client, reporting its errors and logging a completed call has exactly the specified outcome and effects |
| Server.GroveCoderServer.LogCompleted | src/grove_coder/server.py:193-201 | a writable ledger gains exactly the call's record and the result is returned; otherwise the storage error escapes and nothing changes |
| Server.GroveCoderServer.HandleCostReport | src/grove_coder/server.py:203-208 | the reply is the report over the current ledger, or the escaping ValueError |
| Server.GroveCoderServer.Cleanup | src/grove_coder/server.py:210-212 | the client is closed exactly once more, and nothing is sent |

## Left out

- SQLite itself (connections, commits, the CREATE TABLE statement, SQL text) is not modelled. The table is an in-memory sequence. A failed write is the `ledgerWritable` flag of the call's `World`. Failures while reading the table are not modelled.
- The wall clock (`datetime.now()`, `CURRENT_TIMESTAMP`) is not modelled. Times are whole seconds passed in as `now`. Dates are day numbers, not 'YYYY-MM-DD' strings. The store stamps rows in UTC while the window starts use local time; that mismatch is not modelled.
- The HTTP exchange, `response.json()` and `json.loads` are not modelled. What the network and the remote API did is a `Reply` value. This leaves out two cases: a response body whose top level is JSON but not an object, and a `usage` block that is present but null. Usage values of types other than whole numbers are also left out.
- Floating point is not modelled. Money is `real`, and `round(x, 6)` rounds exactly, with ties to even. IEEE rounding of the sums is not reproduced.
- The MCP transport, asyncio, stdio, logging and `_run_server`/`main` are not modelled. Each tool call is one sequential step. Interleaving between concurrent calls is not modelled.
- Replies are modelled as values, not as the JSON text of the `TextContent` that carries them.
- `DeepSeek.DeepSeekClient.Call` takes only the three code kinds, which are the only ones the server passes. The `json.dumps(arguments)` prompt for any other tool name is left out.
- Argument types outside the tool schemas are not modelled: a non-string value for a string argument, or a null `focus_areas`. Every string argument is a string, and `focus_areas` is absent or a list of strings.
- `Server.ToolList` does not model the human-readable descriptions of the tools and their arguments, or the schemas' `"type": "object"` and `"items"` detail. It models the names, argument types, the period enumeration and the required keys.
- The order of breakdown entries that share a date is not fixed by the query. The model keeps the order in which their groups first appear.
- `DeepSeek.Payload` keeps the system prompt as the template and the values it is formatted with. `DeepSeek.Messages` renders the text. `DeepSeek.SystemPromptChoice` and `DeepSeek.InstructionTextNamesValues` state what the rendered text holds.
- A reply whose `choices`, first choice or `message` is present but not a container (a number, say) raises a TypeError at src/grove_coder/deepseek.py:119. That exception is not caught there and is not modelled: `Content` covers missing keys or an empty list, text that is not JSON, content that is not a string, and parsed JSON content.
- A `usage` block that is present but not an object (a list, a string or a number) raises AttributeError at src/grove_coder/deepseek.py:196. It is not modelled: usage is a map of whole-number counts.
- A secrets file whose top level is JSON but not an object makes `load_secrets` fail with a TypeError at src/grove_coder/config.py:44-53. It is not modelled: the file's contents are a map or absent.
- scripts/cost_report.py is not part of this model: it prints the ledger read-only.
