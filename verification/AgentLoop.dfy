/** services/agent/loop.py: the bounded agent loop. */
module AgentLoop {
  import opened Wrappers
  import opened Aggregates
  import opened Gateway
  import opened Texts

  /** One entry of an observation's results; anything but an object is `Malformed`. */
  datatype Item = Hit(chunkId: string, sourcePath: string, sectionPath: string, score: real, text: string) | Malformed

  /** What a tool call came to: the text shown to the model, and the results if it returned an
      object at all. A tool that raises or times out returned nothing. */
  datatype Observation = Observation(results: Option<seq<Item>>, shown: string)

  type Tools = nat -> Observation

  datatype RetrievedRef =
    RetrievedRef(chunkId: string, sourcePath: string, sectionPath: string, score: real, callIndex: nat, text: string)

  datatype RetrievalCall = RetrievalCall(query: Query, callIndex: nat)

  datatype ToolResult = ToolResult(toolUseId: string, content: string)

  datatype Message =
    | Question(question: string)
    | Assistant(content: seq<Block>)
    | ToolResults(results: seq<ToolResult>)
    | BudgetExhausted

  datatype AgentResult = AgentResult(
    answer: string, truncated: bool, stepsUsed: nat, toolsCalled: seq<string>, totalTokens: nat, totalCost: real,
    retrieved: seq<RetrievedRef>, finalTokens: nat, retrievalCalls: seq<RetrievalCall>)

  /** `messages` is the conversation as the last call saw it, with the last answer if the loop added
      it; `calls` counts the model calls made, the raising one included. */
  datatype Turn =
    | Returned(result: AgentResult, messages: seq<Message>, calls: nat)
    | Raised(reply: Reply, messages: seq<Message>, calls: nat)

  const MAX_CHUNK_TEXT := 2000
  const SEARCH_DOCS := "search_docs"
  const NO_ANSWER := "(no answer produced before the tool budget was exhausted)"

  function IsUse(): Block -> bool { (b: Block) => b.ToolUse? }

  function Uses(content: seq<Block>): seq<Block> { Kept(IsUse(), content) }

  function Clip(text: string): string { if |text| <= MAX_CHUNK_TEXT then text else text[..MAX_CHUNK_TEXT] }

  function IsText(): Block -> bool { (b: Block) => b.Text? }

  function Content(): Block -> string { (b: Block) => if b.Text? then b.text else "" }

  /** The text blocks joined by newlines, before the final strip. */
  function Joined(content: seq<Block>): string { Join("\n", Mapped(Content(), Kept(IsText(), content))) }

  function TextOf(content: seq<Block>): string { Strip(Joined(content)) }

  // ----- what a conversation determines -----

  /** All tool uses of `n` replies, in order. */
  function AllUses(replies: Script, start: nat, n: nat): seq<Block> {
    if n == 0 then []
    else
      var r := replies(start + n - 1);
      AllUses(replies, start, n - 1) + if r.Response? then Uses(r.content) else []
  }

  /** The ids of `uses`, each with what its own call showed; the first is call number `from`. */
  function Answers(uses: seq<Block>, tools: Tools, from: nat): (rs: seq<ToolResult>)
    ensures |rs| == |uses|
  {
    if uses == [] then []
    else
      var n := |uses| - 1;
      Answers(uses[..n], tools, from) + [ToolResult(if uses[n].ToolUse? then uses[n].id else "", tools(from + n).shown)]
  }

  /** The conversation after `n` replies. */
  function Conversation(question: string, replies: Script, tools: Tools, start: nat, n: nat): seq<Message> {
    if n == 0 then [Question(question)]
    else
      var r := replies(start + n - 1);
      var before := Conversation(question, replies, tools, start, n - 1);
      if !r.Response? then before
      else
        before + [Assistant(r.content)]
        + if Uses(r.content) == [] then []
          else [ToolResults(Answers(Uses(r.content), tools, |AllUses(replies, start, n - 1)|))]
  }

  predicate IsSearch(b: Block) { b.ToolUse? && b.name == SEARCH_DOCS }

  /** One entry per search, numbered from 0. */
  function SearchCalls(uses: seq<Block>): seq<RetrievalCall> {
    if uses == [] then []
    else
      var n := |uses| - 1;
      var front := SearchCalls(uses[..n]);
      if IsSearch(uses[n]) then front + [RetrievalCall(uses[n].input, |front|)] else front
  }

  /** The well-formed results of one search, as references of call `index`. */
  function Refs(items: seq<Item>, index: nat): seq<RetrievedRef> {
    if items == [] then []
    else
      var n := |items| - 1;
      var front := Refs(items[..n], index);
      match items[n]
      case Hit(id, source, section, score, text) =>
        front + [RetrievedRef(id, source, section, score, index, Clip(text))]
      case Malformed => front
  }

  function RefsOf(o: Observation, index: nat): seq<RetrievedRef> {
    if o.results.None? then [] else Refs(o.results.value, index)
  }

  /** Everything the searches among `uses` brought back, in order. */
  function Retrieved(uses: seq<Block>, tools: Tools): seq<RetrievedRef> {
    if uses == [] then []
    else
      var n := |uses| - 1;
      Retrieved(uses[..n], tools) + if IsSearch(uses[n]) then RefsOf(tools(n), |SearchCalls(uses[..n])|) else []
  }

  function Names(uses: seq<Block>): (names: seq<string>)
    ensures |names| == |uses|
  {
    if uses == [] then []
    else
      var last := uses[|uses| - 1];
      Names(uses[..|uses| - 1]) + [if last.ToolUse? then last.name else ""]
  }

  function Tokens(replies: Script, start: nat, n: nat): nat {
    if n == 0 then 0
    else Tokens(replies, start, n - 1) + PromptTokens(replies(start + n - 1)) + CompletionTokens(replies(start + n - 1))
  }

  /** A reply after which the loop does not go on. */
  predicate Ends(r: Reply) { !r.Response? || Uses(r.content) == [] }

  /** How many of the first `maxSteps` replies are asked for, when `i` have been. */
  function Asked(replies: Script, start: nat, maxSteps: int, i: nat): (n: nat)
    ensures i <= n && (i <= maxSteps ==> n <= maxSteps)
    decreases maxSteps - i
  {
    if i >= maxSteps then i
    else if Ends(replies(start + i)) then i + 1
    else Asked(replies, start, maxSteps, i + 1)
  }

  function ResultAfter(replies: Script, tools: Tools, start: nat, steps: nat, calls: nat, answer: string,
      truncated: bool): AgentResult {
    var uses := AllUses(replies, start, steps);
    AgentResult(
      answer, truncated, steps, Names(uses), Tokens(replies, start, calls), Spend(replies, start, start + calls),
      Retrieved(uses, tools), if calls == 0 then 0 else CompletionTokens(replies(start + calls - 1)), SearchCalls(uses))
  }

  /** What one turn comes to, when the gateway is about to give its reply number `start`. */
  function TurnOf(question: string, replies: Script, tools: Tools, start: nat, maxSteps: int): Turn {
    var n := Asked(replies, start, maxSteps, 0);
    if n > 0 && !replies(start + n - 1).Response? then
      Raised(replies(start + n - 1), Conversation(question, replies, tools, start, n - 1), n)
    else if n > 0 && Uses(replies(start + n - 1).content) == [] then
      Returned(ResultAfter(replies, tools, start, n, n, TextOf(replies(start + n - 1).content), false),
               Conversation(question, replies, tools, start, n), n)
    else
      var messages := Conversation(question, replies, tools, start, n) + [BudgetExhausted];
      var last := replies(start + n);
      if !last.Response? then Raised(last, messages, n + 1)
      else
        var text := TextOf(last.content);
        Returned(ResultAfter(replies, tools, start, n, n + 1, if text == "" then NO_ANSWER else text, true), messages,
          n + 1)
  }

  // ----- the program -----

  /** `_collect_retrieval`: both lists grow in place. */
  class Retrieval {
    var retrieved: seq<RetrievedRef>
    var calls: seq<RetrievalCall>

    constructor ()
      ensures retrieved == [] && calls == []
    {
      retrieved, calls := [], [];
    }

    method Collect(query: Query, o: Observation, index: nat)
      modifies this
      ensures calls == old(calls) + [RetrievalCall(query, index)]
      ensures retrieved == old(retrieved) + RefsOf(o, index)
    {
      calls := calls + [RetrievalCall(query, index)];
      if o.results.None? {
        return;
      }
      var items := o.results.value;
      for i := 0 to |items|
        invariant retrieved == old(retrieved) + Refs(items[..i], index)
        invariant calls == old(calls) + [RetrievalCall(query, index)]
      {
        assert items[..i + 1][..i] == items[..i];
        match items[i]
        case Malformed =>
        case Hit(id, source, section, score, text) =>
          retrieved := retrieved + [RetrievedRef(id, source, section, score, index, Clip(text))];
      }
      assert items[..|items|] == items;
    }
  }

  lemma UsesAreUses(content: seq<Block>, i: nat)
    requires i < |Uses(content)|
    ensures Uses(content)[i].ToolUse?
  {
    KeptElements(IsUse(), content, Uses(content)[i]);
  }

  lemma UseAdded(done: seq<Block>, use: Block, tools: Tools)
    requires use.ToolUse?
    ensures Names(done + [use]) == Names(done) + [use.name]
    ensures SearchCalls(done + [use])
         == SearchCalls(done) + if use.name == SEARCH_DOCS then [RetrievalCall(use.input, |SearchCalls(done)|)] else []
    ensures Retrieved(done + [use], tools)
         == Retrieved(done, tools) + if use.name == SEARCH_DOCS then RefsOf(tools(|done|), |SearchCalls(done)|) else []
  {
    assert (done + [use])[..|done|] == done;
  }

  lemma AnswerAdded(done: seq<Block>, use: Block, tools: Tools, from: nat)
    requires use.ToolUse?
    ensures Answers(done + [use], tools, from)
            == Answers(done, tools, from) + [ToolResult(use.id, tools(from + |done|).shown)]
  {
    assert (done + [use])[..|done|] == done;
  }

  lemma NoAnswers(tools: Tools, from: nat)
    ensures Answers([], tools, from) == []
  {
  }

  /** Executes the tool uses of one reply, in order; `before` are those of the replies before it. */
  method ExecuteTools(uses: seq<Block>, tools: Tools, log: Retrieval, ghost before: seq<Block>, called: seq<string>)
    returns (toolsCalled: seq<string>, results: seq<ToolResult>)
    requires forall i :: 0 <= i < |uses| ==> uses[i].ToolUse?
    requires called == Names(before) && log.retrieved == Retrieved(before, tools) && log.calls == SearchCalls(before)
    modifies log
    ensures toolsCalled == Names(before + uses)
    ensures log.retrieved == Retrieved(before + uses, tools) && log.calls == SearchCalls(before + uses)
    ensures results == Answers(uses, tools, |before|)
  {
    hide Names, Retrieved, SearchCalls, RefsOf, Answers;
    results := [];
    toolsCalled := called;
    NoAnswers(tools, |before|);
    assert before + uses[..0] == before && uses[..0] == [];
    for i := 0 to |uses|
      invariant toolsCalled == Names(before + uses[..i])
      invariant log.retrieved == Retrieved(before + uses[..i], tools) && log.calls == SearchCalls(before + uses[..i])
      invariant results == Answers(uses[..i], tools, |before|)
    {
      var observation := tools(|toolsCalled|);
      assert uses[..i + 1] == uses[..i] + [uses[i]];
      assert before + uses[..i + 1] == before + uses[..i] + [uses[i]];
      UseAdded(before + uses[..i], uses[i], tools);
      AnswerAdded(uses[..i], uses[i], tools, |before|);
      if uses[i].name == SEARCH_DOCS {
        log.Collect(uses[i].input, observation, |log.calls|);
      }
      toolsCalled := toolsCalled + [uses[i].name];
      results := results + [ToolResult(uses[i].id, observation.shown)];
    }
    assert uses[..|uses|] == uses;
  }

  lemma NothingYet(question: string, replies: Script, tools: Tools, start: nat)
    ensures Conversation(question, replies, tools, start, 0) == [Question(question)]
    ensures var uses := AllUses(replies, start, 0);
            Names(uses) == [] && Retrieved(uses, tools) == [] && SearchCalls(uses) == []
    ensures Tokens(replies, start, 0) == 0 && Spend(replies, start, start) == 0.0
  {
  }

  lemma ReplyAdded(question: string, replies: Script, tools: Tools, start: nat, n: nat)
    ensures var r := replies(start + n);
            && Spend(replies, start, start + n + 1) == Spend(replies, start, start + n) + Billed(r)
            && (r.Response? ==>
                  && AllUses(replies, start, n + 1) == AllUses(replies, start, n) + Uses(r.content)
                  && Tokens(replies, start, n + 1) == Tokens(replies, start, n) + r.promptTokens + r.completionTokens
                  && Conversation(question, replies, tools, start, n + 1)
                     == Conversation(question, replies, tools, start, n) + [Assistant(r.content)]
                        + if Uses(r.content) == [] then []
                          else [ToolResults(Answers(Uses(r.content), tools, |AllUses(replies, start, n)|))])
  {
    hide Uses, Answers;
  }

  lemma AskedStep(replies: Script, start: nat, maxSteps: int, i: nat)
    ensures Asked(replies, start, maxSteps, i)
         == if i >= maxSteps then i else if Ends(replies(start + i)) then i + 1
           else Asked(replies, start, maxSteps, i + 1)
  {
  }

  /** The three ways a turn can go once the loop has asked for its last reply, number `n`. */
  lemma TurnAt(question: string, replies: Script, tools: Tools, start: nat, maxSteps: int, n: nat)
    requires n == Asked(replies, start, maxSteps, 0)
    ensures var turn := TurnOf(question, replies, tools, start, maxSteps);
            if n > 0 && !replies(start + n - 1).Response? then
              turn == Raised(replies(start + n - 1), Conversation(question, replies, tools, start, n - 1), n)
            else if n > 0 && Uses(replies(start + n - 1).content) == [] then
              turn == Returned(ResultAfter(replies, tools, start, n, n, TextOf(replies(start + n - 1).content), false),
                               Conversation(question, replies, tools, start, n), n)
            else
              var messages := Conversation(question, replies, tools, start, n) + [BudgetExhausted];
              var last := replies(start + n);
              turn == if !last.Response? then Raised(last, messages, n + 1)
                      else Returned(ResultAfter(replies, tools, start, n, n + 1,
                        if TextOf(last.content) == "" then NO_ANSWER else TextOf(last.content), true), messages, n + 1)
  {
    hide Conversation, ResultAfter, TextOf, Uses, Asked;
  }

  method RunTurn(question: string, gateway: Service, tools: Tools, alias: string, maxSteps: int) returns (turn: Turn)
    requires gateway.stats.Valid()
    modifies gateway`served, gateway.stats
    ensures gateway.stats.Valid()
    ensures turn == TurnOf(question, gateway.replies, tools, old(gateway.served), maxSteps)
    ensures gateway.served == old(gateway.served) + turn.calls
    ensures gateway.stats.cost == old(gateway.stats.cost) + Spend(gateway.replies, old(gateway.served), gateway.served)
  {
    hide Conversation, AllUses, Tokens, Spend, Retrieved, SearchCalls, Names, Answers, Uses, TextOf, Asked, TurnOf;
    ghost var replies, start := gateway.replies, gateway.served;
    NothingYet(question, replies, tools, start);
    var messages, toolsCalled := [Question(question)], [];
    var log := new Retrieval();
    var tokens, cost, finalTokens, steps := 0, 0.0, 0, 0;
    while steps < maxSteps
      invariant gateway.stats.Valid() && gateway.served == start + steps
      invariant gateway.stats.cost == old(gateway.stats.cost) + Spend(replies, start, start + steps)
      invariant Asked(replies, start, maxSteps, steps) == Asked(replies, start, maxSteps, 0)
      invariant steps == 0 || !Ends(replies(start + steps - 1))
      invariant messages == Conversation(question, replies, tools, start, steps)
      invariant toolsCalled == Names(AllUses(replies, start, steps))
      invariant log.retrieved == Retrieved(AllUses(replies, start, steps), tools)
      invariant log.calls == SearchCalls(AllUses(replies, start, steps))
      invariant tokens == Tokens(replies, start, steps) && cost == Spend(replies, start, start + steps)
      invariant finalTokens == if steps == 0 then 0 else CompletionTokens(replies(start + steps - 1))
    {
      ghost var before := AllUses(replies, start, steps);
      AskedStep(replies, start, maxSteps, steps);
      ReplyAdded(question, replies, tools, start, steps);
      steps := steps + 1;
      var reply := gateway.Chat(alias);
      if !reply.Response? {
        TurnAt(question, replies, tools, start, maxSteps, steps);
        return Raised(reply, messages, steps);
      }
      tokens := tokens + reply.promptTokens + reply.completionTokens;
      cost := cost + reply.cost;
      finalTokens := reply.completionTokens;
      messages := messages + [Assistant(reply.content)];
      var uses := Uses(reply.content);
      if uses == [] {
        assert AllUses(replies, start, steps) == before;
        TurnAt(question, replies, tools, start, maxSteps, steps);
        return Returned(
            AgentResult(TextOf(reply.content), false, steps, toolsCalled, tokens, cost, log.retrieved, finalTokens,
              log.calls),
            messages, steps);
      }
      forall i | 0 <= i < |uses|
        ensures uses[i].ToolUse?
      {
        UsesAreUses(reply.content, i);
      }
      var results;
      toolsCalled, results := ExecuteTools(uses, tools, log, before, toolsCalled);
      messages := messages + [ToolResults(results)];
    }
    AskedStep(replies, start, maxSteps, steps);
    ReplyAdded(question, replies, tools, start, steps);
    TurnAt(question, replies, tools, start, maxSteps, steps);
    messages := messages + [BudgetExhausted];
    var reply := gateway.Chat(alias);
    if !reply.Response? {
      return Raised(reply, messages, steps + 1);
    }
    tokens := tokens + reply.promptTokens + reply.completionTokens;
    cost := cost + reply.cost;
    finalTokens := reply.completionTokens;
    var text := TextOf(reply.content);
    return Returned(
        AgentResult(if text == "" then NO_ANSWER else text, true, steps, toolsCalled, tokens, cost, log.retrieved,
          finalTokens, log.calls),
        messages, steps + 1);
  }

  // ----- what every turn keeps to -----

  /** Reply `j` asks for tools, so the loop goes on. */
  predicate WantsMore(replies: Script, start: nat, j: nat) { !Ends(replies(start + j)) }

  /** Where the loop stops asking: at the first reply that ends it, or at the budget. */
  lemma {:induction false} AskedFacts(replies: Script, start: nat, maxSteps: int, i: nat)
    requires i <= maxSteps || i == 0
    ensures var n := Asked(replies, start, maxSteps, i);
            && (i > maxSteps ==> n == i)
            && (forall j: nat :: i <= j < n - 1 ==> WantsMore(replies, start, j))
            && ((n > i && !WantsMore(replies, start, n - 1))
               || (&& n == (if i <= maxSteps then maxSteps else 0)
                   && forall j: nat :: i <= j < n ==> WantsMore(replies, start, j)))
    decreases maxSteps - i
  {
    if i < maxSteps && !Ends(replies(start + i)) {
      AskedFacts(replies, start, maxSteps, i + 1);
    }
  }

  function Budget(maxSteps: int): nat { if maxSteps < 0 then 0 else maxSteps }

  /** However the model and the tools behave, a turn makes at most `maxSteps + 1` model calls; what
      it reports spent is what its calls were billed, in money and in tokens; and it is truncated
      exactly when every reply within the budget asked for tools. */
  lemma TurnIsBounded(question: string, replies: Script, tools: Tools, start: nat, maxSteps: int)
    ensures var turn := TurnOf(question, replies, tools, start, maxSteps);
            && 1 <= turn.calls <= Budget(maxSteps) + 1
            && (turn.Returned? ==>
                  && turn.result.totalCost == Spend(replies, start, start + turn.calls)
                  && turn.result.totalTokens == Tokens(replies, start, turn.calls)
                  && turn.result.finalTokens == CompletionTokens(replies(start + turn.calls - 1))
                  && turn.result.stepsUsed == turn.calls - (if turn.result.truncated then 1 else 0)
                  && (turn.result.truncated <==> forall j: nat :: j < maxSteps ==> WantsMore(replies, start, j)))
  {
    hide Conversation, AllUses, Retrieved, SearchCalls, Names, TextOf, Uses, Asked, TurnOf, Spend, Tokens;
    var n := Asked(replies, start, maxSteps, 0);
    AskedFacts(replies, start, maxSteps, 0);
    TurnAt(question, replies, tools, start, maxSteps, n);
    if n > 0 {
      var last := replies(start + n - 1);
      assert WantsMore(replies, start, n - 1) <==> last.Response? && Uses(last.content) != [];
    }
  }

  /** A reply's tool uses are answered at once, by id and in order; and nothing else is. */
  ghost predicate UsesAnswered(messages: seq<Message>) {
    && (forall i :: 0 <= i < |messages| && messages[i].Assistant? && Uses(messages[i].content) != [] ==>
          i + 1 < |messages| && messages[i + 1].ToolResults?
            && AnswersUses(messages[i + 1].results, Uses(messages[i].content)))
    && forall i :: 0 <= i < |messages| && messages[i].ToolResults? ==>
         i > 0 && messages[i - 1].Assistant? && AnswersUses(messages[i].results, Uses(messages[i - 1].content))
  }

  ghost predicate AnswersUses(results: seq<ToolResult>, uses: seq<Block>) {
    |results| == |uses| && forall j :: 0 <= j < |uses| ==> uses[j].ToolUse? && results[j].toolUseId == uses[j].id
  }

  lemma {:induction false} AnswersFacts(uses: seq<Block>, tools: Tools, from: nat)
    requires forall i :: 0 <= i < |uses| ==> uses[i].ToolUse?
    ensures AnswersUses(Answers(uses, tools, from), uses)
  {
    if uses != [] {
      AnswersFacts(uses[..|uses| - 1], tools, from);
    }
  }

  lemma {:induction false} ConversationAnswers(question: string, replies: Script, tools: Tools, start: nat, n: nat)
    ensures var messages := Conversation(question, replies, tools, start, n);
            messages != [] && UsesAnswered(messages)
  {
    if n > 0 {
      ConversationAnswers(question, replies, tools, start, n - 1);
      var r := replies(start + n - 1);
      if r.Response? {
        ExtendAnswered(Conversation(question, replies, tools, start, n - 1), r.content, tools,
          |AllUses(replies, start, n - 1)|);
      }
    }
  }

  lemma ExtendAnswered(before: seq<Message>, content: seq<Block>, tools: Tools, from: nat)
    requires UsesAnswered(before)
    ensures UsesAnswered(
              before + [Assistant(content)]
              + if Uses(content) == [] then [] else [ToolResults(Answers(Uses(content), tools, from))])
  {
    var uses := Uses(content);
    forall i | 0 <= i < |uses|
      ensures uses[i].ToolUse?
    {
      UsesAreUses(content, i);
    }
    AnswersFacts(uses, tools, from);
  }

  lemma EveryUseIsAnswered(question: string, replies: Script, tools: Tools, start: nat, maxSteps: int)
    ensures UsesAnswered(TurnOf(question, replies, tools, start, maxSteps).messages)
  {
    hide Conversation, UsesAnswered, ResultAfter, TextOf, Uses, Asked;
    var n := Asked(replies, start, maxSteps, 0);
    ConversationAnswers(question, replies, tools, start, n);
    ReminderIsNoUse(Conversation(question, replies, tools, start, n));
    if n > 0 {
      ConversationAnswers(question, replies, tools, start, n - 1);
    }
  }

  lemma ReminderIsNoUse(messages: seq<Message>)
    requires UsesAnswered(messages)
    ensures UsesAnswered(messages + [BudgetExhausted])
  {
  }

  // ----- retrieval -----

  lemma {:induction false} SearchCallsAreNumbered(uses: seq<Block>)
    ensures forall i :: 0 <= i < |SearchCalls(uses)| ==> SearchCalls(uses)[i].callIndex == i
  {
    if uses != [] {
      SearchCallsAreNumbered(uses[..|uses| - 1]);
    }
  }

  lemma {:induction false} RefsCarryIndex(items: seq<Item>, index: nat)
    ensures forall i :: 0 <= i < |Refs(items, index)| ==>
            Refs(items, index)[i].callIndex == index && |Refs(items, index)[i].text| <= MAX_CHUNK_TEXT
  {
    if items != [] {
      RefsCarryIndex(items[..|items| - 1], index);
    }
  }

  /** Call indices never go down, and stay below the number of searches. */
  ghost predicate IndicesClimb(refs: seq<RetrievedRef>, searches: nat) {
    && (forall i, j :: 0 <= i < j < |refs| ==> refs[i].callIndex <= refs[j].callIndex)
    && forall i :: 0 <= i < |refs| ==> refs[i].callIndex < searches
  }

  lemma ClimbingNeedsASearch(refs: seq<RetrievedRef>, searches: nat)
    ensures IndicesClimb(refs, searches) && refs != [] ==> searches > 0
  {
    assert refs != [] && IndicesClimb(refs, searches) ==> refs[0].callIndex < searches;
  }

  lemma {:induction false} RetrievedClimbs(uses: seq<Block>, tools: Tools)
    ensures IndicesClimb(Retrieved(uses, tools), |SearchCalls(uses)|)
  {
    if uses != [] {
      var n := |uses| - 1;
      RetrievedClimbs(uses[..n], tools);
      if tools(n).results.Some? {
        RefsCarryIndex(tools(n).results.value, |SearchCalls(uses[..n])|);
      }
    }
  }

  lemma {:induction false} SearchCallsAreSearches(uses: seq<Block>)
    ensures |SearchCalls(uses)| == multiset(Names(uses))[SEARCH_DOCS]
    requires forall i :: 0 <= i < |uses| ==> uses[i].ToolUse?
  {
    if uses != [] {
      var n := |uses| - 1;
      SearchCallsAreSearches(uses[..n]);
    }
  }

  lemma {:induction false} AllUsesAreUses(replies: Script, start: nat, n: nat)
    ensures forall i :: 0 <= i < |AllUses(replies, start, n)| ==> AllUses(replies, start, n)[i].ToolUse?
  {
    if n > 0 {
      AllUsesAreUses(replies, start, n - 1);
      var r := replies(start + n - 1);
      if r.Response? {
        forall i | 0 <= i < |Uses(r.content)|
          ensures Uses(r.content)[i].ToolUse?
        {
          UsesAreUses(r.content, i);
        }
      }
    }
  }

  lemma ResultOf(question: string, replies: Script, tools: Tools, start: nat, maxSteps: int)
    requires TurnOf(question, replies, tools, start, maxSteps).Returned?
    ensures var r := TurnOf(question, replies, tools, start, maxSteps).result;
            var uses := AllUses(replies, start, Asked(replies, start, maxSteps, 0));
            r.retrieved == Retrieved(uses, tools) && r.retrievalCalls == SearchCalls(uses)
              && r.toolsCalled == Names(uses)
  {
    hide AllUses, Retrieved, SearchCalls, Names, Conversation, TextOf, Uses, Spend, Tokens;
  }

  /** What was retrieved belongs to the searches made: the calls are numbered in order, there is one
      for every use of the search tool, and nothing is retrieved by a turn that never searched. */
  lemma RetrievalIsAccounted(question: string, replies: Script, tools: Tools, start: nat, maxSteps: int)
    requires TurnOf(question, replies, tools, start, maxSteps).Returned?
    ensures var r := TurnOf(question, replies, tools, start, maxSteps).result;
            && IndicesClimb(r.retrieved, |r.retrievalCalls|)
            && (forall i :: 0 <= i < |r.retrievalCalls| ==> r.retrievalCalls[i].callIndex == i)
            && |r.retrievalCalls| == multiset(r.toolsCalled)[SEARCH_DOCS]
            && (r.retrieved != [] ==> r.retrievalCalls != [])
  {
    hide *;
    ResultOf(question, replies, tools, start, maxSteps);
    var n := Asked(replies, start, maxSteps, 0);
    var uses := AllUses(replies, start, n);
    ClimbingNeedsASearch(Retrieved(uses, tools), |SearchCalls(uses)|);
    RetrievedClimbs(uses, tools);
    SearchCallsAreNumbered(uses);
    AllUsesAreUses(replies, start, n);
    SearchCallsAreSearches(uses);
  }
}
