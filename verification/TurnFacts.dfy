/** What a turn reports, told from its replies and its tools (services/agent/loop.py). */
module TurnFacts {
  import opened Wrappers
  import opened Aggregates
  import opened Texts
  import opened Gateway
  import opened AgentLoop
  import S = Sectioning

  // ----- what the searches found -----

  /** The number of a use, and of an item of what it observed. */
  type Place = (nat, nat)

  /** Use number `u` is a search. */
  predicate Searches(uses: seq<Block>, u: nat) { u < |uses| && uses[u].ToolUse? && uses[u].name == "search_docs" }

  /** Use `at.0` is a search, and item `at.1` of what it observed is a result. */
  ghost predicate Found(uses: seq<Block>, tools: Tools, at: Place) {
    && Searches(uses, at.0) && tools(at.0).results.Some?
    && at.1 < |tools(at.0).results.value| && tools(at.0).results.value[at.1].Hit?
  }

  function SearchesBefore(uses: seq<Block>, u: nat): set<nat> { set v: nat | v < u && Searches(uses, v) }

  /** The reference is that result: same chunk, source, section and score; its text, or the first 2000
      characters of it; and as call index the number of searches before. */
  ghost predicate Reports(ref: RetrievedRef, uses: seq<Block>, tools: Tools, at: Place)
    requires Found(uses, tools, at)
  {
    var item := tools(at.0).results.value[at.1];
    && ref.chunkId == item.chunkId && ref.sourcePath == item.sourcePath && ref.sectionPath == item.sectionPath
    && ref.score == item.score && ref.callIndex == |SearchesBefore(uses, at.0)|
    && (if |item.text| <= 2000 then ref.text == item.text else |ref.text| == 2000 && ref.text <= item.text)
  }

  predicate Earlier(a: Place, b: Place) { a.0 < b.0 || (a.0 == b.0 && a.1 < b.1) }

  /** One reference for each result found, in the order of the searches and of their results. */
  ghost predicate ReportsAll(refs: seq<RetrievedRef>, uses: seq<Block>, tools: Tools, at: seq<Place>) {
    && |at| == |refs|
    && (forall i :: 0 <= i < |at| ==> Found(uses, tools, at[i]) && Reports(refs[i], uses, tools, at[i]))
    && (forall i, j :: 0 <= i < j < |at| ==> Earlier(at[i], at[j]))
    && forall x: Place :: Found(uses, tools, x) ==> x in at
  }

  lemma {:induction false} CallsCountSearches(uses: seq<Block>)
    ensures |SearchCalls(uses)| == |SearchesBefore(uses, |uses|)|
  {
    if uses != [] {
      var n := |uses| - 1;
      CallsCountSearches(uses[..n]);
      SearchesPrefix(uses, n, n);
      assert SearchesBefore(uses, n + 1) == SearchesBefore(uses, n) + if Searches(uses, n) then {n} else {};
    }
  }

  lemma SearchesPrefix(uses: seq<Block>, n: nat, u: nat)
    requires u <= n <= |uses|
    ensures SearchesBefore(uses[..n], u) == SearchesBefore(uses, u)
  {
  }

  /** The results among the first `m` items of use `u`. */
  function Hits(items: seq<Item>, u: nat, m: nat): seq<Place>
    requires m <= |items|
  {
    if m == 0 then [] else Hits(items, u, m - 1) + if items[m - 1].Hit? then [(u, m - 1)] else []
  }

  lemma {:induction false} HitsFacts(items: seq<Item>, u: nat, m: nat)
    requires m <= |items|
    ensures var hits := Hits(items, u, m);
            && (forall i :: 0 <= i < |hits| ==> hits[i].0 == u && hits[i].1 < m && items[hits[i].1].Hit?)
            && (forall i, j :: 0 <= i < j < |hits| ==> hits[i].1 < hits[j].1)
            && forall k: nat :: k < m && items[k].Hit? ==> (u, k) in hits
  {
    if m > 0 {
      HitsFacts(items, u, m - 1);
    }
  }

  /** A reference made of an item. */
  ghost predicate MadeOf(ref: RetrievedRef, item: Item, index: nat) {
    && item.Hit? && ref.chunkId == item.chunkId && ref.sourcePath == item.sourcePath
    && ref.sectionPath == item.sectionPath && ref.score == item.score && ref.callIndex == index
    && (if |item.text| <= 2000 then ref.text == item.text else |ref.text| == 2000 && ref.text <= item.text)
  }

  lemma {:induction false} RefsAreMade(items: seq<Item>, u: nat, m: nat, index: nat)
    requires m <= |items|
    ensures |Refs(items[..m], index)| == |Hits(items, u, m)|
    ensures forall i :: 0 <= i < |Hits(items, u, m)| ==>
      Hits(items, u, m)[i].1 < |items| && MadeOf(Refs(items[..m], index)[i], items[Hits(items, u, m)[i].1], index)
  {
    if m > 0 {
      RefsAreMade(items, u, m - 1, index);
      HitsFacts(items, u, m - 1);
      assert items[..m][..m - 1] == items[..m - 1];
    }
  }

  lemma FoundEarlier(uses: seq<Block>, tools: Tools, n: nat, x: Place)
    requires n <= |uses|
    ensures Found(uses[..n], tools, x) <==> Found(uses, tools, x) && x.0 < n
  {
  }

  lemma ReportsLater(ref: RetrievedRef, uses: seq<Block>, tools: Tools, n: nat, x: Place)
    requires n <= |uses| && Found(uses[..n], tools, x) && Reports(ref, uses[..n], tools, x)
    ensures Found(uses, tools, x) && Reports(ref, uses, tools, x)
  {
    FoundEarlier(uses, tools, n, x);
    SearchesPrefix(uses, n, x.0);
  }

  lemma {:induction false} RetrievedIsWhatWasFound(uses: seq<Block>, tools: Tools) returns (at: seq<Place>)
    ensures ReportsAll(Retrieved(uses, tools), uses, tools, at)
  {
    if uses == [] {
      at := [];
    } else {
      hide Reports, Found, Refs, Earlier, RefsOf, ReportsAll;
      var n := |uses| - 1;
      var earlier := RetrievedIsWhatWasFound(uses[..n], tools);
      KeepsReporting(Retrieved(uses[..n], tools), uses, tools, n, earlier);
      if Searches(uses, n) && tools(n).results.Some? {
        at := NewlyFound(Retrieved(uses[..n], tools), uses, tools, earlier);
      } else {
        at := earlier;
        NothingNew(Retrieved(uses[..n], tools), uses, tools, earlier);
      }
    }
  }

  /** What holds of the first `n` uses, said of all of them. */
  ghost predicate ReportsFirst(refs: seq<RetrievedRef>, uses: seq<Block>, tools: Tools, n: nat, at: seq<Place>) {
    && |at| == |refs|
    && (forall i :: 0 <= i < |at| ==> Found(uses, tools, at[i]) && Reports(refs[i], uses, tools, at[i]) && at[i].0 < n)
    && (forall i, j :: 0 <= i < j < |at| ==> Earlier(at[i], at[j]))
    && forall x: Place :: Found(uses, tools, x) && x.0 < n ==> x in at
  }

  lemma KeepsReporting(refs: seq<RetrievedRef>, uses: seq<Block>, tools: Tools, n: nat, at: seq<Place>)
    requires n <= |uses| && ReportsAll(refs, uses[..n], tools, at)
    ensures ReportsFirst(refs, uses, tools, n, at)
  {
    hide Reports, Found, Earlier;
    forall i | 0 <= i < |at|
      ensures Found(uses, tools, at[i]) && Reports(refs[i], uses, tools, at[i]) && at[i].0 < n
    {
      FoundEarlier(uses, tools, n, at[i]);
      ReportsLater(refs[i], uses, tools, n, at[i]);
    }
    forall x: Place | Found(uses, tools, x) && x.0 < n
      ensures x in at
    {
      FoundEarlier(uses, tools, n, x);
    }
  }

  lemma NothingNew(refs: seq<RetrievedRef>, uses: seq<Block>, tools: Tools, at: seq<Place>)
    requires uses != [] && ReportsFirst(refs, uses, tools, |uses| - 1, at)
    requires !Searches(uses, |uses| - 1) || tools(|uses| - 1).results.None?
    ensures ReportsAll(refs, uses, tools, at)
  {
    hide Reports;
    forall x: Place | Found(uses, tools, x)
      ensures x in at
    {
      assert x.0 != |uses| - 1;
    }
  }

  lemma NewlyFound(refs: seq<RetrievedRef>, uses: seq<Block>, tools: Tools, earlier: seq<Place>)
    returns (at: seq<Place>)
    requires uses != [] && ReportsFirst(refs, uses, tools, |uses| - 1, earlier)
    requires Searches(uses, |uses| - 1) && tools(|uses| - 1).results.Some?
    ensures ReportsAll(refs + Refs(tools(|uses| - 1).results.value, |SearchCalls(uses[..|uses| - 1])|), uses, tools, at)
  {
    hide Refs, SearchCalls;
    var n := |uses| - 1;
    var items, index := tools(n).results.value, |SearchCalls(uses[..n])|;
    var hits, new_refs := Hits(items, n, |items|), Refs(items, index);
    CallsCountSearches(uses[..n]);
    SearchesPrefix(uses, n, n);
    HitsFacts(items, n, |items|);
    RefsAreMade(items, n, |items|, index);
    assert items[..|items|] == items;
    at := earlier + hits;
    forall i | 0 <= i < |hits|
      ensures Found(uses, tools, hits[i]) && Reports(new_refs[i], uses, tools, hits[i])
    {
      MadeIsReported(new_refs[i], uses, tools, hits[i], index);
    }
    hide Reports, MadeOf, SearchesBefore, Hits;
    JoinReports(refs, new_refs, uses, tools, earlier, hits);
  }

  lemma MadeIsReported(ref: RetrievedRef, uses: seq<Block>, tools: Tools, x: Place, index: nat)
    requires Searches(uses, x.0) && tools(x.0).results.Some? && x.1 < |tools(x.0).results.value|
    requires MadeOf(ref, tools(x.0).results.value[x.1], index) && index == |SearchesBefore(uses, x.0)|
    ensures Found(uses, tools, x) && Reports(ref, uses, tools, x)
  {
  }

  lemma JoinReports(refs: seq<RetrievedRef>, more: seq<RetrievedRef>, uses: seq<Block>, tools: Tools,
      earlier: seq<Place>, hits: seq<Place>)
    requires uses != [] && ReportsFirst(refs, uses, tools, |uses| - 1, earlier) && |hits| == |more|
    requires Searches(uses, |uses| - 1) && tools(|uses| - 1).results.Some?
    requires forall i :: 0 <= i < |hits| ==>
               Found(uses, tools, hits[i]) && Reports(more[i], uses, tools, hits[i]) && hits[i].0 == |uses| - 1
    requires forall i, j :: 0 <= i < j < |hits| ==> hits[i].1 < hits[j].1
    requires var items := tools(|uses| - 1).results.value;
             forall k: nat :: k < |items| && items[k].Hit? ==> (|uses| - 1, k) in hits
    ensures ReportsAll(refs + more, uses, tools, earlier + hits)
  {
    hide Reports, Found, Searches;
    var at, all := earlier + hits, refs + more;
    forall i | 0 <= i < |at|
      ensures Found(uses, tools, at[i]) && Reports(all[i], uses, tools, at[i])
    {
      if i < |earlier| {
        assert at[i] == earlier[i] && all[i] == refs[i];
      } else {
        assert at[i] == hits[i - |earlier|] && all[i] == more[i - |earlier|];
      }
    }
    forall x: Place | Found(uses, tools, x)
      ensures x in at
    {
      FoundIsHit(uses, tools, x);
      if x.0 == |uses| - 1 {
        assert x == (|uses| - 1, x.1);
      }
    }
  }

  lemma FoundIsHit(uses: seq<Block>, tools: Tools, x: Place)
    requires Found(uses, tools, x)
    ensures x.0 < |uses| && tools(x.0).results.Some? && x.1 < |tools(x.0).results.value|
            && tools(x.0).results.value[x.1].Hit?
  {
  }

  // ----- the turn -----

  /** What a returned turn reports as retrieved is exactly what the searches among its replies' uses
      found: each result once, in order, as it was observed. */
  lemma TurnReportsWhatItFound(question: string, replies: Script, tools: Tools, start: nat, maxSteps: int)
    returns (uses: seq<Block>, at: seq<Place>)
    requires TurnOf(question, replies, tools, start, maxSteps).Returned?
    ensures var r := TurnOf(question, replies, tools, start, maxSteps).result;
            uses == AllUses(replies, start, r.stepsUsed) && ReportsAll(r.retrieved, uses, tools, at)
  {
    hide ReportsAll, Retrieved, AllUses;
    TurnSteps(question, replies, tools, start, maxSteps);
    ResultOf(question, replies, tools, start, maxSteps);
    uses := AllUses(replies, start, Asked(replies, start, maxSteps, 0));
    at := RetrievedIsWhatWasFound(uses, tools);
  }

  lemma TurnSteps(question: string, replies: Script, tools: Tools, start: nat, maxSteps: int)
    requires TurnOf(question, replies, tools, start, maxSteps).Returned?
    ensures TurnOf(question, replies, tools, start, maxSteps).result.stepsUsed == Asked(replies, start, maxSteps, 0)
  {
    hide AllUses, Retrieved, SearchCalls, Names, Conversation, TextOf, Uses, Spend, Tokens, Asked;
    TurnAt(question, replies, tools, start, maxSteps, Asked(replies, start, maxSteps, 0));
  }

  /** Each search is reported with what it asked for, under the number of searches before it. */
  lemma {:induction false} SearchesAreReported(uses: seq<Block>, u: nat)
    requires Searches(uses, u)
    ensures var index := |SearchesBefore(uses, u)|;
            index < |SearchCalls(uses)| && SearchCalls(uses)[index] == RetrievalCall(uses[u].input, index)
  {
    hide SearchesBefore;
    var n := |uses| - 1;
    SearchesPrefix(uses, n, u);
    if u == n {
      CallsCountSearches(uses[..n]);
    } else {
      SearchesAreReported(uses[..n], u);
    }
  }

  /** Use number `i` of a reply is answered under its own id with what its own call showed, the call
      being numbered after all uses before it. */
  lemma {:induction false} AnswersShowTheirCalls(uses: seq<Block>, tools: Tools, before: nat, i: nat)
    requires i < |uses| && uses[i].ToolUse?
    ensures Answers(uses, tools, before)[i] == ToolResult(uses[i].id, tools(before + i).shown)
  {
    var n := |uses| - 1;
    if i < n {
      AnswersShowTheirCalls(uses[..n], tools, before, i);
    }
  }

  lemma {:induction false} NamesAreCalled(uses: seq<Block>, i: nat)
    requires i < |uses| && uses[i].ToolUse?
    ensures Names(uses)[i] == uses[i].name
  {
    var n := |uses| - 1;
    if i < n {
      NamesAreCalled(uses[..n], i);
    }
  }

  // ----- the answer -----

  /** What is visible in the text blocks, in order. */
  function TextInk(content: seq<Block>): string {
    if content == [] then ""
    else
      var last := content[|content| - 1];
      TextInk(content[..|content| - 1]) + if last.Text? then S.Ink(last.text) else ""
  }

  lemma {:induction false} JoinedInk(content: seq<Block>)
    ensures S.InkOf(Mapped(Content(), Kept(IsText(), content))) == TextInk(content)
  {
    if content != [] {
      hide S.Ink, S.InkOf, Mapped, TextInk, Kept;
      var n := |content| - 1;
      JoinedInk(content[..n]);
      KeptLast(IsText(), content);
      var texts := Kept(IsText(), content[..n]);
      assert IsText()(content[n]) <==> content[n].Text?;
      assert Kept(IsText(), content) == if content[n].Text? then texts + [content[n]] else texts;
      TextInkLast(content);
      if content[n].Text? {
        MappedLast(texts, content[n]);
      }
    } else {
      NothingJoined();
    }
  }

  lemma NothingJoined()
    ensures S.InkOf(Mapped(Content(), Kept(IsText(), []))) == "" && TextInk([]) == ""
  {
  }

  lemma TextInkLast(content: seq<Block>)
    requires content != []
    ensures var last := content[|content| - 1];
            TextInk(content) == TextInk(content[..|content| - 1]) + if last.Text? then S.Ink(last.text) else ""
  {
  }

  lemma MappedLast(texts: seq<Block>, b: Block)
    requires b.Text?
    ensures S.InkOf(Mapped(Content(), texts + [b])) == S.InkOf(Mapped(Content(), texts)) + S.Ink(b.text)
  {
    hide S.Ink;
    MappedConcat(Content(), texts, [b]);
    assert Mapped(Content(), [b]) == [b.text];
    var all := Mapped(Content(), texts) + [b.text];
    assert all[..|all| - 1] == Mapped(Content(), texts);
  }

  /** The answer of a returned turn is its last reply's text: all that is visible in its text blocks, in
      order, with no white space around it. A truncated turn whose last reply has nothing visible says
      so instead. */
  lemma AnswerIsTheLastText(question: string, replies: Script, tools: Tools, start: nat, maxSteps: int, turn: Turn)
    requires turn == TurnOf(question, replies, tools, start, maxSteps) && turn.Returned?
    ensures turn.calls > 0 && replies(start + turn.calls - 1).Response?
    ensures var last, answer := replies(start + turn.calls - 1), turn.result.answer;
            if turn.result.truncated && TextInk(last.content) == "" then answer == NO_ANSWER
            else
              && S.Ink(answer) == TextInk(last.content)
              && (answer != "" ==> !IsSpace(answer[0]) && !IsSpace(answer[|answer| - 1]))
              && (answer == "" <==> TextInk(last.content) == "")
  {
    hide AllUses, Retrieved, SearchCalls, Names, Conversation, Uses, Spend, Tokens, Asked, TextOf, TextInk, S.Ink;
    var n := Asked(replies, start, maxSteps, 0);
    TurnAt(question, replies, tools, start, maxSteps, n);
    var last := replies(start + turn.calls - 1);
    TextIsTrimmed(last.content);
  }

  lemma TextIsTrimmed(content: seq<Block>)
    ensures var text := TextOf(content);
            && S.Ink(text) == TextInk(content) && (text == "" <==> TextInk(content) == "")
            && (text != "" ==> !IsSpace(text[0]) && !IsSpace(text[|text| - 1]))
  {
    hide Strip, Join, TextInk, S.InkOf, S.Ink, S.Surrounds, Mapped, Kept;
    var parts := Mapped(Content(), Kept(IsText(), content));
    S.StripKeepsInk(Join("\n", parts));
    S.BreaksAreBlank();
    S.JoinKeepsInk("\n", parts);
    JoinedInk(content);
  }

  // ----- the conversation -----

  function IsAssistant(): Message -> bool { (m: Message) => m.Assistant? }

  /** The first `n` replies as the conversation shows them. */
  function Said(replies: Script, start: nat, n: nat): seq<Message> {
    if n == 0 then []
    else
      var r := replies(start + n - 1);
      Said(replies, start, n - 1) + if r.Response? then [Assistant(r.content)] else []
  }

  lemma {:induction false} ConversationShows(question: string, replies: Script, tools: Tools, start: nat, n: nat)
    ensures var messages := Conversation(question, replies, tools, start, n);
            messages != [] && messages[0] == Question(question)
              && Kept(IsAssistant(), messages) == Said(replies, start, n)
  {
    if n == 0 {
      KeptOne(IsAssistant(), Question(question));
    } else {
      hide Uses, Answers, AllUses, Kept;
      ConversationShows(question, replies, tools, start, n - 1);
      var r := replies(start + n - 1);
      if r.Response? {
        var before, said := Conversation(question, replies, tools, start, n - 1), [Assistant(r.content)];
        ReplyAdded(question, replies, tools, start, n - 1);
        KeptConcat(IsAssistant(), before, said);
        KeptOne(IsAssistant(), said[0]);
        var results := if Uses(r.content) == [] then []
                       else [ToolResults(Answers(Uses(r.content), tools, |AllUses(replies, start, n - 1)|))];
        assert Conversation(question, replies, tools, start, n) == before + said + results;
        KeptConcat(IsAssistant(), before + said, results);
        ResultsAreNotSaid(results);
        assert Kept(IsAssistant(), before) + said + [] == Kept(IsAssistant(), before) + said;
      }
    }
  }

  lemma ResultsAreNotSaid(results: seq<Message>)
    requires results == [] || (|results| == 1 && results[0].ToolResults?)
    ensures Kept(IsAssistant(), results) == []
  {
    if results != [] {
      KeptOne(IsAssistant(), results[0]);
      assert results == [results[0]];
    }
  }

  /** A turn asks on as long as replies ask for tools, and no longer: every reply before its last asks
      for some; a turn that raised ends at a call that brought no reply, one that returned at the first
      reply that asks for none, or, its budget used up, one call later. The conversation it leaves
      begins with the question and shows the replies it read within the budget, in order. */
  lemma TurnAsksWhileToolsAreWanted(question: string, replies: Script, tools: Tools, start: nat, maxSteps: int,
      turn: Turn)
    requires turn == TurnOf(question, replies, tools, start, maxSteps)
    ensures turn.calls > 0
    ensures forall j: nat :: j < turn.calls - 1 ==> WantsMore(replies, start, j)
    ensures turn.Raised? ==> !replies(start + turn.calls - 1).Response?
    ensures turn.Returned? && !turn.result.truncated ==> !WantsMore(replies, start, turn.calls - 1)
    ensures turn.Returned? && turn.result.truncated ==> turn.calls == Budget(maxSteps) + 1
    ensures turn.messages != [] && turn.messages[0] == Question(question)
    ensures turn.Returned? ==>
              Kept(IsAssistant(), turn.messages) == Said(replies, start, turn.result.stepsUsed)
  {
    hide AllUses, Retrieved, SearchCalls, Names, Conversation, TextOf, Uses, Spend, Tokens, Asked, Kept, Said;
    var n := Asked(replies, start, maxSteps, 0);
    TurnAt(question, replies, tools, start, maxSteps, n);
    AskedFacts(replies, start, maxSteps, 0);
    ConversationShows(question, replies, tools, start, n);
    if n > 0 {
      ConversationShows(question, replies, tools, start, n - 1);
    }
    var messages := Conversation(question, replies, tools, start, n);
    KeptConcat(IsAssistant(), messages, [BudgetExhausted]);
    KeptOne(IsAssistant(), BudgetExhausted);
  }

  // ----- the totals -----

  /** The calls of a turn, as the gateway counts them. */
  function CallsOf(replies: Script, alias: string, start: nat, n: nat): seq<Call> {
    if n == 0 then [] else CallsOf(replies, alias, start, n - 1) + [Call(alias, replies(start + n - 1))]
  }

  lemma {:induction false} TokensAreTallied(replies: Script, alias: string, start: nat, n: nat)
    ensures var t := Tally(CallsOf(replies, alias, start, n));
            Tokens(replies, start, n) == t.promptTokens + t.completionTokens
              && Spend(replies, start, start + n) == t.cost
  {
    hide *;
    if n == 0 {
      NoCallsTallied(replies, alias, start);
    } else {
      var calls, r := CallsOf(replies, alias, start, n - 1), replies(start + n - 1);
      TokensAreTallied(replies, alias, start, n - 1);
      OneCallMore(replies, alias, start, n - 1);
      CallAdded(calls, Call(alias, r));
      CountedAdds(Tally(calls), r);
    }
  }

  lemma NoCallsTallied(replies: Script, alias: string, start: nat)
    ensures Tally(CallsOf(replies, alias, start, 0)) == NO_STATS
    ensures Tokens(replies, start, 0) == 0 && Spend(replies, start, start) == 0.0
    ensures NO_STATS.promptTokens == 0 && NO_STATS.completionTokens == 0 && NO_STATS.cost == 0.0
  {
  }

  lemma OneCallMore(replies: Script, alias: string, start: nat, n: nat)
    ensures var r := replies(start + n);
            CallsOf(replies, alias, start, n + 1) == CallsOf(replies, alias, start, n) + [Call(alias, r)]
              && Tokens(replies, start, n + 1) == Tokens(replies, start, n) + PromptTokens(r) + CompletionTokens(r)
              && Spend(replies, start, start + n + 1) == Spend(replies, start, start + n) + Billed(r)
  {
    hide PromptTokens, CompletionTokens, Billed;
  }

  /** What a returned turn reports as spent and used is what the gateway counts for the turn's calls. */
  lemma TurnTotalsAreTheGateways(question: string, replies: Script, tools: Tools, start: nat, maxSteps: int,
      alias: string)
    requires TurnOf(question, replies, tools, start, maxSteps).Returned?
    ensures var turn := TurnOf(question, replies, tools, start, maxSteps);
            var t := Tally(CallsOf(replies, alias, start, turn.calls));
            turn.result.totalCost == t.cost && turn.result.totalTokens == t.promptTokens + t.completionTokens
  {
    hide TurnOf, Tally, CallsOf, Spend, Tokens;
    TurnIsBounded(question, replies, tools, start, maxSteps);
    TokensAreTallied(replies, alias, start, TurnOf(question, replies, tools, start, maxSteps).calls);
  }
}
