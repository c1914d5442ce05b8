/** backend/services/claudeService.js: the catalogue of tools offered to the
    language model and `askClaude`, the bounded loop that lets the model call
    tools before it answers. The model call and the six tools are parameters:
    `model` answers a message list with a response or throws, and each tool
    answers with the JSON text of its result or throws. */
module Agent {
  import opened Common

  /** A content block of a model response. */
  datatype Block =
    | TextBlock(text: string)
    | ToolUseBlock(id: string, name: string, input: map<string, Value>)
    | OtherBlock(kind: string)

  /** The `content` of a `tool_result`: the JSON text of what the tool
      returned, the failure object of a scrape, or `undefined` for a tool
      name the loop does not know. */
  datatype ToolContent =
    | Json(text: string)
    | ScrapeFailure(message: string, url: Value)
    | NoContent

  datatype ToolResult = ToolResult(toolUseId: string, content: ToolContent)

  /** A message's content: a value from a request body, the raw blocks of a
      model response, or the results of one round of tool calls. */
  datatype Content = Plain(value: Value) | Blocks(blocks: seq<Block>) | Results(results: seq<ToolResult>)

  datatype Message = Message(role: string, content: Content)

  datatype Response = Response(stopReason: string, content: seq<Block>)

  /** The six tools the loop can call; `Err` is the message of what a call throws. */
  datatype Tools = Tools(
    searchNews: Value -> Result<string, string>,
    calculate: Value -> Result<string, string>,
    getWeather: Value -> Result<string, string>,
    searchWikipedia: Value -> Result<string, string>,
    searchWeb: (Value, Value) -> Result<string, string>,
    scrapeWebpage: Value -> Result<string, string>)

  /** A tool as the catalogue describes it to the model: its name, its input
      properties and which of them are required. */
  datatype ToolSpec = ToolSpec(name: string, properties: seq<string>, required: seq<string>)

  const Catalogue: seq<ToolSpec> := [
    ToolSpec("searchNews", ["query"], ["query"]),
    ToolSpec("calculate", ["expression"], ["expression"]),
    ToolSpec("getWeather", ["location"], ["location"]),
    ToolSpec("searchWikipedia", ["query"], ["query"]),
    ToolSpec("searchWeb", ["query", "count"], ["query"]),
    ToolSpec("scrapeWebpage", ["url"], ["url"])
  ]

  const MaxLoops: nat := 5
  const DefaultWebCount := 5
  const FallbackReply := "I've used multiple tools but need to stop here. Please try rephrasing your question."
  const NoTextReply := "I couldn't generate a response."

  /** Every required input of a catalogued tool is one of its properties,
      and the names are distinct. */
  lemma CatalogueWellFormed()
    ensures |Catalogue| == 6
    ensures forall i, j :: 0 <= i < j < |Catalogue| ==> Catalogue[i].name != Catalogue[j].name
    ensures forall t :: t in Catalogue ==> |t.required| == 1 && t.required[0] in t.properties
  {
  }

  /** `input.<key>`: an absent property reads as `undefined`. */
  function Field(input: map<string, Value>, key: string): (v: Value)
    ensures key !in input ==> v == Undefined
  {
    if key in input then input[key] else Undefined
  }

  /** The result of one tool call, selected by the block's name. Only a
      failing scrape is caught and turned into a result; the other tools'
      failures propagate. An unknown name runs nothing. */
  function Dispatch(use: Block, tools: Tools): Result<ToolContent, string>
    requires use.ToolUseBlock?
  {
    var input := use.input;
    if use.name == "searchNews" then JsonOf(tools.searchNews(Field(input, "query")))
    else if use.name == "calculate" then JsonOf(tools.calculate(Field(input, "expression")))
    else if use.name == "getWeather" then JsonOf(tools.getWeather(Field(input, "location")))
    else if use.name == "searchWikipedia" then JsonOf(tools.searchWikipedia(Field(input, "query")))
    else if use.name == "searchWeb" then
      JsonOf(tools.searchWeb(Field(input, "query"), Or(Field(input, "count"), Num(DefaultWebCount))))
    else if use.name == "scrapeWebpage" then
      match tools.scrapeWebpage(Field(input, "url"))
      case Ok(text) => Ok(Json(text))
      case Err(message) => Ok(ScrapeFailure(message, Field(input, "url")))
    else Ok(NoContent)
  }

  function JsonOf(r: Result<string, string>): (c: Result<ToolContent, string>)
    ensures c.Ok? <==> r.Ok?
    ensures c.Ok? ==> c.value == Json(r.value)
    ensures c.Err? ==> c.error == r.error
  {
    match r
    case Ok(text) => Ok(Json(text))
    case Err(e) => Err(e)
  }

  /** Dispatch by name: a catalogued tool always yields content, the
      scrape's failure included; an unknown name yields `undefined`; every
      other tool fails exactly when the tool throws. */
  lemma DispatchByName(use: Block, tools: Tools)
    requires use.ToolUseBlock?
    ensures Dispatch(use, tools) == Ok(NoContent) <==> (forall t :: t in Catalogue ==> t.name != use.name)
  {
    var names := ["searchNews", "calculate", "getWeather", "searchWikipedia", "searchWeb", "scrapeWebpage"];
    assert forall i :: 0 <= i < 6 ==> Catalogue[i].name == names[i];
    if use.name in names {
      var i :| 0 <= i < 6 && names[i] == use.name;
      assert Catalogue[i] in Catalogue;
    } else {
      assert Dispatch(use, tools) == Ok(NoContent);
    }
  }

  /** Only the five tools whose failures are not caught can fail a call. */
  lemma DispatchFailures(use: Block, tools: Tools)
    requires use.ToolUseBlock?
    ensures use.name == "scrapeWebpage" ==> Dispatch(use, tools).Ok?
    ensures Dispatch(use, tools).Err? ==> use.name in ["searchNews", "calculate", "getWeather", "searchWikipedia", "searchWeb"]
  {
  }

  /** `searchWeb` gets the requested count when it is truthy and 5 otherwise;
      the other tools failing is a failure of the round. */
  lemma DispatchExamples(id: string, tools: Tools, input: map<string, Value>)
    ensures "count" !in input ==>
      Dispatch(ToolUseBlock(id, "searchWeb", input), tools) == JsonOf(tools.searchWeb(Field(input, "query"), Num(5)))
    ensures input == map["query" := Str("rust"), "count" := Num(0)] ==>
      Dispatch(ToolUseBlock(id, "searchWeb", input), tools) == JsonOf(tools.searchWeb(Str("rust"), Num(5)))
    ensures input == map["query" := Str("rust"), "count" := Num(8)] ==>
      Dispatch(ToolUseBlock(id, "searchWeb", input), tools) == JsonOf(tools.searchWeb(Str("rust"), Num(8)))
    ensures tools.calculate(Field(input, "expression")).Err? ==>
      Dispatch(ToolUseBlock(id, "calculate", input), tools).Err?
  {
  }

  /** `response.content.filter(block => block.type === "tool_use")`. */
  function ToolUses(content: seq<Block>): (uses: seq<Block>)
    ensures |uses| <= |content|
    ensures forall b :: b in uses <==> b in content && b.ToolUseBlock?
  {
    if content == [] then []
    else (if content[0].ToolUseBlock? then [content[0]] else []) + ToolUses(content[1..])
  }

  /** Picking the tool calls distributes over concatenation, and a single
      block is kept exactly when it is a tool call. */
  lemma {:induction false} ToolUsesAppend(a: seq<Block>, b: seq<Block>)
    ensures ToolUses(a + b) == ToolUses(a) + ToolUses(b)
  {
    if a != [] {
      assert (a + b)[0] == a[0];
      assert (a + b)[1..] == a[1..] + b;
      ToolUsesAppend(a[1..], b);
    } else {
      assert a + b == b;
    }
  }

  lemma ToolUsesSingle(b: Block)
    ensures b.ToolUseBlock? ==> ToolUses([b]) == [b]
    ensures !b.ToolUseBlock? ==> ToolUses([b]) == []
  {
    assert [b][1..] == [];
  }

  /** The text of the first text block, or the stock reply when there is none. */
  function FirstText(content: seq<Block>): (r: string)
    ensures (forall b :: b in content ==> !b.TextBlock?) ==> r == NoTextReply
    ensures forall i :: FirstTextAt(content, i) ==> r == content[i].text
  {
    if content == [] then NoTextReply
    else if content[0].TextBlock? then content[0].text
    else FirstText(content[1..])
  }

  /** Block `i` is the first text block of the content. */
  predicate FirstTextAt(content: seq<Block>, i: int) {
    0 <= i < |content| && content[i].TextBlock? && forall j :: 0 <= j < i ==> !content[j].TextBlock?
  }

  /** Block `k` is the first from block `from` on whose tool throws, with message `e`. */
  predicate FirstFailureAt(uses: seq<Block>, tools: Tools, from: nat, k: int, e: string)
    requires forall b :: b in uses ==> b.ToolUseBlock?
  {
    from <= k < |uses| && Dispatch(uses[k], tools) == Err(e)
    && forall j :: from <= j < k ==> Dispatch(uses[j], tools).Ok?
  }

  /** The results of the blocks from `from` on: the tools run one after the
      other in block order, and the first one that throws ends the round with
      its message. */
  function RoundFrom(uses: seq<Block>, tools: Tools, from: nat): (r: Result<seq<ToolResult>, string>)
    requires from <= |uses|
    requires forall b :: b in uses ==> b.ToolUseBlock?
    ensures r.Ok? <==> forall i :: from <= i < |uses| ==> Dispatch(uses[i], tools).Ok?
    ensures r.Ok? ==> |r.value| == |uses| - from && forall i :: from <= i < |uses| ==>
      r.value[i - from] == ToolResult(uses[i].id, Dispatch(uses[i], tools).value)
    decreases |uses| - from
  {
    if from == |uses| then Ok([])
    else
      match Dispatch(uses[from], tools)
      case Err(e) => Err(e)
      case Ok(content) =>
        match RoundFrom(uses, tools, from + 1)
        case Err(e) => Err(e)
        case Ok(rest) => Ok([ToolResult(uses[from].id, content)] + rest)
  }

  /** The results of one round, one per tool-use block. */
  function RoundResults(uses: seq<Block>, tools: Tools): (r: Result<seq<ToolResult>, string>)
    requires forall b :: b in uses ==> b.ToolUseBlock?
    ensures r.Ok? <==> forall i :: 0 <= i < |uses| ==> Dispatch(uses[i], tools).Ok?
    ensures r.Ok? ==> |r.value| == |uses| && forall i :: 0 <= i < |uses| ==>
      r.value[i] == ToolResult(uses[i].id, Dispatch(uses[i], tools).value)
  {
    RoundFrom(uses, tools, 0)
  }

  /** A failed round fails with the message of its first failing tool. */
  lemma {:induction false} RoundFailsAtFirstFailure(uses: seq<Block>, tools: Tools, from: nat)
    requires from <= |uses|
    requires forall b :: b in uses ==> b.ToolUseBlock?
    requires RoundFrom(uses, tools, from).Err?
    ensures exists k :: FirstFailureAt(uses, tools, from, k, RoundFrom(uses, tools, from).error)
    decreases |uses| - from
  {
    var e := RoundFrom(uses, tools, from).error;
    if Dispatch(uses[from], tools).Err? {
      assert FirstFailureAt(uses, tools, from, from, e);
    } else {
      RoundFailsAtFirstFailure(uses, tools, from + 1);
      var k :| FirstFailureAt(uses, tools, from + 1, k, e);
      assert FirstFailureAt(uses, tools, from, k, e);
    }
  }

  /** The two messages a tool-use round appends: the assistant's raw
      response, then the user's tool results. */
  function RoundMessages(response: Response, results: seq<ToolResult>): seq<Message> {
    [Message("assistant", Blocks(response.content)), Message("user", Results(results))]
  }

  /** How a run of the loop ends: its reply (or what it throws), the message
      list it ended with, how many model calls it made and how many tool
      rounds it completed. */
  datatype Run = Run(reply: Result<string, string>, messages: seq<Message>, calls: nat, rounds: nat)

  /** The loop from round `loopCount` on, with message list `messages`. A
      tool-use response whose tools all return starts another round; any
      other stop reason ends the loop with the first text block; after five
      rounds the loop gives up with the stock fallback reply. */
  function Converse(messages: seq<Message>, model: seq<Message> -> Result<Response, string>, tools: Tools,
                    loopCount: nat): (r: Run)
    requires loopCount <= MaxLoops
    ensures r.rounds <= r.calls <= MaxLoops - loopCount
    ensures |r.messages| == |messages| + 2 * r.rounds && r.messages[..|messages|] == messages
    ensures r.calls == r.rounds <==> r.rounds == MaxLoops - loopCount
    ensures r.calls == r.rounds ==> r.reply == Ok(FallbackReply)
    ensures r.calls != r.rounds ==> r.calls == r.rounds + 1
    decreases MaxLoops - loopCount
  {
    if loopCount == MaxLoops then Run(Ok(FallbackReply), messages, 0, 0)
    else
      match model(messages)
      case Err(e) => Run(Err(e), messages, 1, 0)
      case Ok(response) =>
        if response.stopReason == "tool_use" then
          match RoundResults(ToolUses(response.content), tools)
          case Err(e) => Run(Err(e), messages, 1, 0)
          case Ok(results) =>
            var next := messages + RoundMessages(response, results);
            var rest := Converse(next, model, tools, loopCount + 1);
            assert rest.messages[..|messages|] == next[..|messages|];
            Run(rest.reply, rest.messages, rest.calls + 1, rest.rounds + 1)
        else
          // "end_turn" and any other stop reason answer the same way.
          Run(Ok(FirstText(response.content)), messages, 1, 0)
  }

  /** The model answered, asking for tools that all return. */
  predicate AsksForTools(response: Result<Response, string>, tools: Tools) {
    && response.Ok? && response.value.stopReason == "tool_use"
    && RoundResults(ToolUses(response.value.content), tools).Ok?
  }

  /** A model that asks for tools on every call, with tools that all return,
      gets five calls and the fallback reply. */
  lemma {:induction false} EndlessToolUseFallsBack(messages: seq<Message>, model: seq<Message> -> Result<Response, string>,
                                                   tools: Tools, loopCount: nat)
    requires loopCount <= MaxLoops
    requires forall ms :: AsksForTools(model(ms), tools)
    ensures var r := Converse(messages, model, tools, loopCount);
      r.reply == Ok(FallbackReply) && r.calls == MaxLoops - loopCount
    decreases MaxLoops - loopCount
  {
    if loopCount < MaxLoops {
      var response := model(messages).value;
      var results := RoundResults(ToolUses(response.content), tools).value;
      EndlessToolUseFallsBack(messages + RoundMessages(response, results), model, tools, loopCount + 1);
    }
  }

  /** A response that does not ask for tools ends the conversation at once
      with its first text, and nothing is appended. */
  lemma AnswerEndsTheLoop(messages: seq<Message>, model: seq<Message> -> Result<Response, string>, tools: Tools,
                          loopCount: nat)
    requires loopCount < MaxLoops
    requires model(messages).Ok? && model(messages).value.stopReason != "tool_use"
    ensures var r := Converse(messages, model, tools, loopCount);
      && r.reply == Ok(FirstText(model(messages).value.content))
      && r.calls == 1 && r.messages == messages
  {
  }

  /** Each tool round appends, after the messages so far, the assistant's raw
      response and one result per tool-use block, in block order and keyed by
      the block's id. */
  lemma RoundAppendsResponseThenResults(messages: seq<Message>, model: seq<Message> -> Result<Response, string>,
                                        tools: Tools, loopCount: nat)
    requires loopCount < MaxLoops
    requires model(messages).Ok? && model(messages).value.stopReason == "tool_use"
    requires RoundResults(ToolUses(model(messages).value.content), tools).Ok?
    ensures var response := model(messages).value;
      var uses := ToolUses(response.content);
      var r := Converse(messages, model, tools, loopCount);
      && r.rounds >= 1
      && r.messages[|messages|] == Message("assistant", Blocks(response.content))
      && r.messages[|messages| + 1].content.Results?
      && |r.messages[|messages| + 1].content.results| == |uses|
      && forall i :: 0 <= i < |uses| ==>
           r.messages[|messages| + 1].content.results[i].toolUseId == uses[i].id
  {
    var response := model(messages).value;
    var results := RoundResults(ToolUses(response.content), tools).value;
    var next := messages + RoundMessages(response, results);
    var rest := Converse(next, model, tools, loopCount + 1);
    assert rest.messages[..|next|] == next;
    assert rest.messages[|messages|] == next[|messages|];
    assert rest.messages[|messages| + 1] == next[|messages| + 1];
  }

  /** A failed scrape does not end the round: its failure becomes that
      block's result, carrying the message and the requested URL. */
  lemma ScrapeFailureIsAResult(id: string, input: map<string, Value>, tools: Tools)
    requires tools.scrapeWebpage(Field(input, "url")).Err?
    ensures var r := RoundResults([ToolUseBlock(id, "scrapeWebpage", input)], tools);
      && r.Ok?
      && r.value == [ToolResult(id, ScrapeFailure(tools.scrapeWebpage(Field(input, "url")).error, Field(input, "url")))]
  {
    var uses := [ToolUseBlock(id, "scrapeWebpage", input)];
    var failure := ScrapeFailure(tools.scrapeWebpage(Field(input, "url")).error, Field(input, "url"));
    assert Dispatch(uses[0], tools) == Ok(failure);
    assert RoundFrom(uses, tools, 1) == Ok([]);
    assert RoundFrom(uses, tools, 0) == Ok([ToolResult(id, failure)] + []);
  }

  /** `runTools`: the `for` loop over the tool-use blocks of one response. */
  method RunTools(uses: seq<Block>, tools: Tools) returns (r: Result<seq<ToolResult>, string>)
    requires forall b :: b in uses ==> b.ToolUseBlock?
    ensures r == RoundResults(uses, tools)
  {
    var toolResults: seq<ToolResult> := [];
    for i := 0 to |uses|
      invariant |toolResults| == i
      invariant forall k :: 0 <= k < i ==>
        Dispatch(uses[k], tools).Ok? && toolResults[k] == ToolResult(uses[k].id, Dispatch(uses[k], tools).value)
    {
      var toolResult := Dispatch(uses[i], tools);
      if toolResult.Err? {
        var r := RoundResults(uses, tools);
        assert r.Err?;
        RoundFailsAtFirstFailure(uses, tools, 0);
        var k :| FirstFailureAt(uses, tools, 0, k, r.error);
        assert k == i;
        return Err(toolResult.error);
      }
      toolResults := toolResults + [ToolResult(uses[i].id, toolResult.value)];
    }
    assert RoundResults(uses, tools).Ok?;
    assert RoundResults(uses, tools).value == toolResults;
    return Ok(toolResults);
  }

  /** One pass of the loop: how the reply from `loopCount` on follows from
      the model's response. */
  lemma ConverseStep(messages: seq<Message>, model: seq<Message> -> Result<Response, string>, tools: Tools,
                     loopCount: nat)
    requires loopCount < MaxLoops
    ensures model(messages).Err? ==> Converse(messages, model, tools, loopCount).reply == Err(model(messages).error)
    ensures model(messages).Ok? && model(messages).value.stopReason != "tool_use" ==>
      Converse(messages, model, tools, loopCount).reply == Ok(FirstText(model(messages).value.content))
    ensures model(messages).Ok? && model(messages).value.stopReason == "tool_use" ==>
      var response := model(messages).value;
      var round := RoundResults(ToolUses(response.content), tools);
      && (round.Err? ==> Converse(messages, model, tools, loopCount).reply == Err(round.error))
      && (round.Ok? ==>
            Converse(messages, model, tools, loopCount).reply
            == Converse(messages + RoundMessages(response, round.value), model, tools, loopCount + 1).reply)
  {
  }

  /** `askClaude(conversationHistory)`. The history is taken by value, so
      the rounds' messages go to a copy and the caller's list is never
      extended. The source's `continueLoop` flag is only cleared right
      before a `return`, so the loop is bounded by the count alone. */
  method AskClaude(conversationHistory: seq<Message>, model: seq<Message> -> Result<Response, string>, tools: Tools)
    returns (r: Result<string, string>)
    ensures r == Converse(conversationHistory, model, tools, 0).reply
  {
    var messages := conversationHistory;
    var loopCount := 0;
    ghost var reply := Converse(conversationHistory, model, tools, 0).reply;
    while loopCount < MaxLoops
      invariant loopCount <= MaxLoops
      invariant Converse(messages, model, tools, loopCount).reply == reply
      decreases MaxLoops - loopCount
    {
      ConverseStep(messages, model, tools, loopCount);
      var response := model(messages);
      if response.Err? {
        return Err(response.error);
      }
      if response.value.stopReason == "tool_use" {
        var toolUses := ToolUses(response.value.content);
        var toolResults := RunTools(toolUses, tools);
        if toolResults.Err? {
          return Err(toolResults.error);
        }
        messages := messages + RoundMessages(response.value, toolResults.value);
      } else if response.value.stopReason == "end_turn" {
        return Ok(FirstText(response.value.content));
      } else {
        return Ok(FirstText(response.value.content));
      }
      loopCount := loopCount + 1;
    }
    return Ok(FallbackReply);
  }
}
