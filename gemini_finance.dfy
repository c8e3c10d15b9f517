/**
 * `gemini_finance_response` of apps/gemini_finance.py: a two-round exchange
 * with the Gemini model. Round 1 offers two finance tools and forces a tool
 * call; the named tool is run against Yahoo Finance; round 2 sends the prompt,
 * the model's call and the tool's result back and returns the model's text.
 *
 * The model and the market data are not modelled: they are passed in as
 * functions, and the mediator records every call it makes on them.
 */
module GeminiFinance {
  import opened Wrappers

  // ---------------------------------------------------------------- genai types

  /** `types.FunctionCall`: the tool the model asks for, with keyword arguments (`args` may be None). */
  datatype FunctionCall = FunctionCall(name: string, args: Option<map<string, string>>)

  /** A value of a Yahoo Finance `info` record: text, a number or None. */
  datatype InfoValue = Text(text: string) | Number(number: real) | Null

  /** The records the two tools return (the dicts built at the end of each tool). */
  datatype ToolResult =
    | FinancialInfo(companyName: InfoValue, incomeStatement: string, balanceSheet: string, cashFlow: string)
    | StockPrice(companyName: InfoValue, currentPrice: InfoValue, stockPrice: string)

  /** `types.FunctionResponse`: the result handed back under the tool's name. */
  datatype FunctionResponse = FunctionResponse(name: string, response: map<string, ToolResult>)

  /** `types.Part`: at most one of its fields is set in this program. */
  datatype Part = Part(text: Option<string>, functionCall: Option<FunctionCall>, functionResponse: Option<FunctionResponse>)

  function TextPart(text: string): Part {
    Part(Some(text), None, None)
  }

  function CallPart(call: FunctionCall): Part {
    Part(None, Some(call), None)
  }

  /** `types.Part.from_function_response`. */
  function ResponsePart(name: string, response: map<string, ToolResult>): Part {
    Part(None, None, Some(FunctionResponse(name, response)))
  }

  /** `types.Content`: one turn of the conversation. */
  datatype Content = Content(role: string, parts: seq<Part>)

  datatype Candidate = Candidate(content: Content)

  /** What `generate_content` returns: its candidates and the `.text` the SDK derives from them. */
  datatype GenerateResponse = GenerateResponse(candidates: seq<Candidate>, text: string)

  /** A parameter of a tool declaration: its name and JSON-schema type. */
  datatype Parameter = Parameter(name: string, kind: string)

  /** A function declaration offered to the model. */
  datatype FunctionDeclaration = FunctionDeclaration(name: string, parameters: seq<Parameter>, required: seq<string>)

  datatype Tool = Tool(functionDeclarations: seq<FunctionDeclaration>)

  /**
   * The request configuration: the tools offered, `automatic_function_calling.disable`,
   * `tool_config.function_calling_config.mode` and `system_instruction`.
   */
  datatype GenConfig = GenConfig(
    tools: seq<Tool>,
    disableAutomaticFunctionCalling: Option<bool>,
    functionCallingMode: Option<string>,
    systemInstruction: Option<seq<string>>)

  // ------------------------------------------------------------ configuration

  const ModelName: string := "gemini-2.0-flash"
  const FinancialInfoName: string := "get_financial_info"
  const StockPriceName: string := "get_stock_price"

  /** The fixed system instruction of round 2; its wording is not modelled. */
  const SystemInstruction: string

  const FinancialInfoDeclaration: FunctionDeclaration :=
    FunctionDeclaration(FinancialInfoName, [Parameter("ticker", "string")], ["ticker"])

  const StockPriceDeclaration: FunctionDeclaration :=
    FunctionDeclaration(
      StockPriceName,
      [Parameter("ticker", "string"), Parameter("period", "string"), Parameter("interval", "string")],
      ["ticker", "period", "interval"])

  const Declarations: seq<FunctionDeclaration> := [FinancialInfoDeclaration, StockPriceDeclaration]

  /** Round 1: both tools, no automatic function calling, a tool call forced (mode `any`). */
  const Round1Config: GenConfig := GenConfig([Tool(Declarations)], Some(true), Some("any"), None)

  /** Round 2: no tools, only the system instruction. */
  const Round2Config: GenConfig := GenConfig([], None, None, Some([SystemInstruction]))

  function ParameterNames(d: FunctionDeclaration): set<string> {
    set p | p in d.parameters :: p.name
  }

  /** Every parameter of both declarations is required. */
  lemma AllParametersRequired()
    ensures forall d :: d in Declarations ==> ParameterNames(d) == (set n | n in d.required)
    ensures ParameterNames(FinancialInfoDeclaration) == {"ticker"}
    ensures ParameterNames(StockPriceDeclaration) == {"ticker", "period", "interval"}
  {
    var f := FinancialInfoDeclaration;
    var s := StockPriceDeclaration;
    assert ParameterNames(f) == {"ticker"} by {
      assert f.parameters[0].name == "ticker";
    }
    assert ParameterNames(s) == {"ticker", "period", "interval"} by {
      assert s.parameters[0].name == "ticker";
      assert s.parameters[1].name == "period";
      assert s.parameters[2].name == "interval";
    }
  }

  // ------------------------------------------------------------- market data

  /** The three statements `get_financial_info` fetches. */
  datatype Statement = IncomeStatement | BalanceSheet | CashFlow

  /**
   * Yahoo Finance, as far as the tools use it: a ticker's `info` record, its
   * statements as the JSON text `format_data` makes of them, and its price
   * history for a period and an interval as JSON text.
   */
  datatype Market = Market(
    info: string -> map<string, InfoValue>,
    statement: (string, Statement) -> string,
    history: (string, string, string) -> string)

  /** Python's `dict.get(key, default)`. */
  function Get(record: map<string, InfoValue>, key: string, default: InfoValue): InfoValue {
    if key in record then record[key] else default
  }

  /** The tool `get_financial_info(ticker)`. */
  function GetFinancialInfo(market: Market, ticker: string): ToolResult {
    FinancialInfo(
      Get(market.info(ticker), "longName", Text(ticker)),
      market.statement(ticker, IncomeStatement),
      market.statement(ticker, BalanceSheet),
      market.statement(ticker, CashFlow))
  }

  /** The tool `get_stock_price(ticker, period, interval)`. */
  function GetStockPrice(market: Market, ticker: string, period: string, interval: string): ToolResult {
    var info := market.info(ticker);
    StockPrice(Get(info, "longName", Text(ticker)), Get(info, "currentPrice", Text("None")), market.history(ticker, period, interval))
  }

  /**
   * The company name is the `longName` of the ticker's record and falls back
   * to the ticker itself; the current price falls back to the text `'None'`.
   * The statements and the history are passed through as fetched.
   */
  lemma ToolRecordDefaults(market: Market, ticker: string, period: string, interval: string)
    ensures var info := market.info(ticker); var f := GetFinancialInfo(market, ticker);
      && f.FinancialInfo?
      && ("longName" in info ==> f.companyName == info["longName"])
      && ("longName" !in info ==> f.companyName == Text(ticker))
      && f.incomeStatement == market.statement(ticker, IncomeStatement)
      && f.balanceSheet == market.statement(ticker, BalanceSheet)
      && f.cashFlow == market.statement(ticker, CashFlow)
    ensures var info := market.info(ticker); var s := GetStockPrice(market, ticker, period, interval);
      && s.StockPrice?
      && s.companyName == GetFinancialInfo(market, ticker).companyName
      && ("currentPrice" in info ==> s.currentPrice == info["currentPrice"])
      && ("currentPrice" !in info ==> s.currentPrice == Text("None"))
      && s.stockPrice == market.history(ticker, period, interval)
  {
  }

  // ------------------------------------------------------------------ dispatch

  /** The Python exception `gemini_finance_response` ends with. */
  datatype MediatorError =
    | NoCandidate               // IndexError: `response.candidates[0]`
    | NoPart                    // IndexError: `content.parts[0]`
    | NoFunctionCall            // AttributeError: `function_call` is None
    | BadArguments(tool: string) // TypeError: `**tool_call.args` does not match the tool's parameters
    | UnknownTool(tool: string)  // UnboundLocalError: `result` was never assigned

  /** The retrieval a tool call asks for. */
  datatype Retrieval =
    | FetchFinancialInfo(ticker: string)
    | FetchStockPrice(ticker: string, period: string, interval: string)

  /** `response.candidates[0].content.parts[0].function_call`. */
  function ToolCallOf(response: GenerateResponse): Result<FunctionCall, MediatorError> {
    if response.candidates == [] then
      Failure(NoCandidate)
    else
      var parts := response.candidates[0].content.parts;
      if parts == [] then
        Failure(NoPart)
      else if parts[0].functionCall.None? then
        Failure(NoFunctionCall)
      else
        Success(parts[0].functionCall.value)
  }

  /**
   * The `if`/`elif` on `tool_call.name`: Python binds `**tool_call.args` to the
   * tool's parameters, which fails unless the keys are exactly those parameters.
   */
  function Dispatch(call: FunctionCall): Result<Retrieval, MediatorError> {
    if call.name == FinancialInfoName then
      if call.args.Some? && call.args.value.Keys == {"ticker"} then
        Success(FetchFinancialInfo(call.args.value["ticker"]))
      else
        Failure(BadArguments(call.name))
    else if call.name == StockPriceName then
      if call.args.Some? && call.args.value.Keys == {"ticker", "period", "interval"} then
        var a := call.args.value;
        Success(FetchStockPrice(a["ticker"], a["period"], a["interval"]))
      else
        Failure(BadArguments(call.name))
    else
      Failure(UnknownTool(call.name))
  }

  /** Runs the retrieval. */
  function Retrieve(market: Market, retrieval: Retrieval): ToolResult {
    match retrieval
    case FetchFinancialInfo(t) => GetFinancialInfo(market, t)
    case FetchStockPrice(t, p, i) => GetStockPrice(market, t, p, i)
  }

  /**
   * Dispatch accepts exactly the calls the round-1 declarations describe: a
   * declared name with arguments for exactly its parameters. An undeclared
   * name is an unknown tool.
   */
  lemma DispatchAcceptsDeclared(call: FunctionCall)
    ensures Dispatch(call).Success? <==>
      exists d :: d in Declarations && d.name == call.name && call.args.Some? && call.args.value.Keys == ParameterNames(d)
    ensures Dispatch(call).Failure? && Dispatch(call).error.UnknownTool? <==>
      forall d :: d in Declarations ==> d.name != call.name
  {
    AllParametersRequired();
    if Dispatch(call).Success? {
      if call.name == FinancialInfoName {
        assert FinancialInfoDeclaration in Declarations;
      } else {
        assert StockPriceDeclaration in Declarations;
      }
    }
  }

  /**
   * The retrieval that runs is fixed by the call: `get_financial_info` with
   * only a ticker fetches the financial statements of that ticker, and
   * `get_stock_price` with a ticker, a period and an interval fetches that
   * price history; no other call fetches anything.
   */
  lemma DispatchSelectsRetrieval(call: FunctionCall, retrieval: Retrieval)
    ensures Dispatch(call) == Success(retrieval) <==>
      match retrieval
      case FetchFinancialInfo(t) =>
        call == FunctionCall(FinancialInfoName, Some(map["ticker" := t]))
      case FetchStockPrice(t, p, i) =>
        call == FunctionCall(StockPriceName, Some(map["ticker" := t, "period" := p, "interval" := i]))
  {
    if Dispatch(call) == Success(retrieval) {
      var a := call.args.value;
      match retrieval
      case FetchFinancialInfo(t) =>
        assert a == map["ticker" := t];
      case FetchStockPrice(t, p, i) =>
        assert a == map["ticker" := t, "period" := p, "interval" := i];
    }
  }

  // ----------------------------------------------------------------- exchange

  /** The conversation of round 1: the user's prompt. */
  function Prompted(prompt: string): seq<Content> {
    [Content("user", [TextPart(prompt)])]
  }

  /**
   * The conversation of round 2: round 1's, then the model's turn echoing
   * its call, then the user's turn carrying the tool's result under the tool's name.
   */
  function Round2Contents(prompt: string, call: FunctionCall, result: ToolResult): seq<Content> {
    Prompted(prompt) + [Content("model", [CallPart(call)]), Content("user", [ResponsePart(call.name, map["result" := result])])]
  }

  /** A call the mediator makes on the model or on the market data. */
  datatype Event =
    | Generate(model: string, contents: seq<Content>, config: GenConfig)
    | Fetch(retrieval: Retrieval)

  /** The model: `client.models.generate_content(model, contents, config)`. */
  type Gemini = (string, seq<Content>, GenConfig) -> GenerateResponse

  /**
   * What `gemini_finance_response(prompt)` returns, or the exception it
   * raises, with the calls it makes on the model and the market, in order.
   */
  function Exchange(prompt: string, gemini: Gemini, market: Market): (Result<string, MediatorError>, seq<Event>) {
    var first := Generate(ModelName, Prompted(prompt), Round1Config);
    match ToolCallOf(gemini(ModelName, Prompted(prompt), Round1Config))
    case Failure(e) => (Failure(e), [first])
    case Success(call) =>
      match Dispatch(call)
      case Failure(e) => (Failure(e), [first])
      case Success(retrieval) =>
        var contents := Round2Contents(prompt, call, Retrieve(market, retrieval));
        (Success(gemini(ModelName, contents, Round2Config).text),
         [first, Fetch(retrieval), Generate(ModelName, contents, Round2Config)])
  }

  /**
   * The protocol: round 1 always goes out first, with the prompt alone and
   * the round-1 configuration. The exchange succeeds exactly when it makes
   * three calls: one retrieval, chosen by the model's call, then round 2 with
   * the three-turn conversation and the round-2 configuration, whose text is
   * the answer verbatim. Otherwise round 1 is the only call.
   */
  lemma ExchangeProtocol(prompt: string, gemini: Gemini, market: Market)
    ensures var (answer, calls) := Exchange(prompt, gemini, market);
      var first := gemini(ModelName, Prompted(prompt), Round1Config);
      && |calls| >= 1
      && calls[0] == Generate(ModelName, Prompted(prompt), Round1Config)
      && (answer.Success? <==> |calls| == 3)
      && (answer.Failure? <==> |calls| == 1)
      && (answer.Success? <==> ToolCallOf(first).Success? && Dispatch(ToolCallOf(first).value).Success?)
      && (answer.Success? ==>
            var call := ToolCallOf(first).value;
            var retrieval := Dispatch(call).value;
            var contents := Round2Contents(prompt, call, Retrieve(market, retrieval));
            && calls[1] == Fetch(retrieval)
            && calls[2] == Generate(ModelName, contents, Round2Config)
            && answer.value == gemini(ModelName, contents, Round2Config).text)
  {
  }

  /** At most one retrieval runs per exchange, and the model is called at most twice. */
  lemma AtMostOneRetrieval(prompt: string, gemini: Gemini, market: Market)
    ensures var calls := Exchange(prompt, gemini, market).1;
      && |set k | 0 <= k < |calls| && calls[k].Fetch?| <= 1
      && |set k | 0 <= k < |calls| && calls[k].Generate?| <= 2
  {
    var calls := Exchange(prompt, gemini, market).1;
    if |calls| == 3 {
      assert (set k | 0 <= k < |calls| && calls[k].Fetch?) == {1};
      assert (set k | 0 <= k < |calls| && calls[k].Generate?) == {0, 2};
    } else {
      assert |calls| == 1 && calls[0].Generate?;
      assert (set k | 0 <= k < |calls| && calls[k].Fetch?) == {};
      assert (set k | 0 <= k < |calls| && calls[k].Generate?) == {0};
    }
  }

  /**
   * A tool name other than the two declared ones fails with `result`
   * unassigned, before any retrieval and before round 2.
   */
  lemma UnknownToolStopsBeforeRound2(prompt: string, gemini: Gemini, market: Market)
    requires var first := gemini(ModelName, Prompted(prompt), Round1Config);
      ToolCallOf(first).Success? && ToolCallOf(first).value.name !in {FinancialInfoName, StockPriceName}
    ensures var call := ToolCallOf(gemini(ModelName, Prompted(prompt), Round1Config)).value;
      Exchange(prompt, gemini, market) == (Failure(UnknownTool(call.name)), [Generate(ModelName, Prompted(prompt), Round1Config)])
  {
  }

  /**
   * The round-2 conversation has exactly three turns: the user's prompt, the
   * model echoing its call, and the user's function response, named after
   * the tool and wrapping the result unmodified as `{"result": result}`.
   * Round 1's conversation is its first turn.
   */
  lemma ConversationShape(prompt: string, call: FunctionCall, result: ToolResult)
    ensures var c := Round2Contents(prompt, call, result);
      && |c| == 3
      && c[..1] == Prompted(prompt)
      && c[0].role == "user" && c[0].parts == [TextPart(prompt)]
      && c[1].role == "model" && c[1].parts == [CallPart(call)]
      && c[2].role == "user" && |c[2].parts| == 1
      && c[2].parts[0].functionResponse == Some(FunctionResponse(call.name, map["result" := result]))
      && c[2].parts[0].functionResponse.value.response.Keys == {"result"}
      && c[2].parts[0].functionResponse.value.response["result"] == result
  {
  }

  /**
   * Round 1 offers both declarations, disables automatic function calling and
   * forces a call; round 2 offers no tools and carries only the system instruction.
   */
  lemma RoundConfigs()
    ensures Round1Config.tools == [Tool([FinancialInfoDeclaration, StockPriceDeclaration])]
    ensures Round1Config.disableAutomaticFunctionCalling == Some(true)
    ensures Round1Config.functionCallingMode == Some("any")
    ensures Round1Config.systemInstruction.None?
    ensures Round2Config.tools == [] && Round2Config.disableAutomaticFunctionCalling.None?
    ensures Round2Config.functionCallingMode.None?
    ensures Round2Config.systemInstruction == Some([SystemInstruction])
  {
  }

  /**
   * `gemini_finance_response`: `result` is assigned in the `if`/`elif` chain
   * and `contents` grows by two appends between the rounds.
   */
  method GeminiFinanceResponse(prompt: string, gemini: Gemini, market: Market)
    returns (answer: Result<string, MediatorError>, calls: seq<Event>)
    ensures (answer, calls) == Exchange(prompt, gemini, market)
  {
    var contents := [Content("user", [TextPart(prompt)])];
    assert contents == Prompted(prompt);
    var response := gemini(ModelName, contents, Round1Config);
    calls := [Generate(ModelName, contents, Round1Config)];
    var toolCall := ToolCallOf(response);
    if toolCall.Failure? {
      return Failure(toolCall.error), calls;
    }
    var call := toolCall.value;
    var result: ToolResult;
    var retrieval: Retrieval;
    if call.name == FinancialInfoName {
      if !(call.args.Some? && call.args.value.Keys == {"ticker"}) {
        return Failure(BadArguments(call.name)), calls;
      }
      retrieval := FetchFinancialInfo(call.args.value["ticker"]);
      result := GetFinancialInfo(market, retrieval.ticker);
    } else if call.name == StockPriceName {
      if !(call.args.Some? && call.args.value.Keys == {"ticker", "period", "interval"}) {
        return Failure(BadArguments(call.name)), calls;
      }
      var a := call.args.value;
      retrieval := FetchStockPrice(a["ticker"], a["period"], a["interval"]);
      result := GetStockPrice(market, a["ticker"], a["period"], a["interval"]);
    } else {
      return Failure(UnknownTool(call.name)), calls;
    }
    calls := calls + [Fetch(retrieval)];
    assert Dispatch(call) == Success(retrieval) && result == Retrieve(market, retrieval);
    var responsePart := ResponsePart(call.name, map["result" := result]);
    contents := contents + [Content("model", [CallPart(call)])];
    contents := contents + [Content("user", [responsePart])];
    assert contents == Round2Contents(prompt, call, result);
    var finalResponse := gemini(ModelName, contents, Round2Config);
    calls := calls + [Generate(ModelName, contents, Round2Config)];
    answer := Success(finalResponse.text);
    assert calls == [Generate(ModelName, Prompted(prompt), Round1Config), Fetch(retrieval), Generate(ModelName, contents, Round2Config)];
  }
}
