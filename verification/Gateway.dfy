/** services/gateway/stats.py and the calls it counts.

    A gateway answers by a script: reply after reply, of which nothing is assumed. What a reply was
    billed is counted whether or not its caller lived to read it. The process-lifetime counters are
    tied to the whole history of calls. */
module Gateway {
  import opened Wrappers
  import opened Aggregates

  /** What a search asked for; the model may leave out either. */
  datatype Query = Query(k: Option<int>, mode: Option<string>)

  datatype Block =
    | Text(text: string)
    | ToolUse(id: string, name: string, input: Query)
    | OtherBlock

  /** What becomes of one call. A `Lost` response was produced and billed, but its caller timed out
      before reading it; an `Unreachable` gateway never saw the call. */
  datatype Reply =
    | Response(content: seq<Block>, promptTokens: nat, completionTokens: nat, cost: real)
    | Lost(promptTokens: nat, completionTokens: nat, cost: real)
    | Refused(status: nat)
    | Unreachable

  datatype Call = Call(alias: string, reply: Reply)

  predicate Served(r: Reply) { r.Response? || r.Lost? }

  function Billed(r: Reply): real { if Served(r) then r.cost else 0.0 }

  function PromptTokens(r: Reply): nat { if Served(r) then r.promptTokens else 0 }

  function CompletionTokens(r: Reply): nat { if Served(r) then r.completionTokens else 0 }

  datatype ModelStats = ModelStats(requests: nat, promptTokens: nat, completionTokens: nat, cost: real)

  const NO_STATS := ModelStats(0, 0, 0, 0.0)

  function Counted(s: ModelStats, r: Reply): ModelStats {
    match r
    case Response(_, p, c, cost) =>
      ModelStats(s.requests + 1, s.promptTokens + p, s.completionTokens + c, s.cost + cost)
    case Lost(p, c, cost) => ModelStats(s.requests + 1, s.promptTokens + p, s.completionTokens + c, s.cost + cost)
    case Refused(_) => s.(requests := s.requests + 1)
    case Unreachable => s
  }

  /** The statistics of a whole history of calls. */
  function Tally(calls: seq<Call>): ModelStats {
    if calls == [] then NO_STATS else Counted(Tally(calls[..|calls| - 1]), calls[|calls| - 1].reply)
  }

  function Errors(calls: seq<Call>): nat {
    if calls == [] then 0 else Errors(calls[..|calls| - 1]) + if calls[|calls| - 1].reply.Refused? then 1 else 0
  }

  function Of(alias: string): Call -> bool { (c: Call) => c.alias == alias }

  function Aliases(calls: seq<Call>): set<string> {
    set i | 0 <= i < |calls| :: calls[i].alias
  }

  /** Each model's counters are those of its own part of the history. */
  ghost predicate PerModel(byModel: map<string, ModelStats>, calls: seq<Call>) {
    byModel.Keys == Aliases(calls) && forall a :: a in byModel ==> byModel[a] == Tally(Kept(Of(a), calls))
  }

  /** `by_model.setdefault(alias, ModelStats())`. */
  function Entry(byModel: map<string, ModelStats>, alias: string): ModelStats {
    if alias in byModel then byModel[alias] else NO_STATS
  }

  /** The process-lifetime counters. `calls` is a history variable. */
  class GatewayStats {
    var requests: nat
    var errors: nat
    var promptTokens: nat
    var completionTokens: nat
    var cost: real
    var byModel: map<string, ModelStats>
    ghost var calls: seq<Call>

    /** The totals are those of the history, and so is each model's share of them. */
    ghost predicate Valid()
      reads this
    {
      && ModelStats(requests, promptTokens, completionTokens, cost) == Tally(calls)
      && errors == Errors(calls)
      && PerModel(byModel, calls)
    }

    constructor ()
      ensures Valid() && calls == [] && cost == 0.0
    {
      requests, errors, promptTokens, completionTokens, cost := 0, 0, 0, 0, 0.0;
      byModel := map[];
      calls := [];
    }

    method RecordSuccess(alias: string, prompt: nat, completion: nat, price: real, ghost r: Reply)
      requires Valid() && Served(r) && r.promptTokens == prompt && r.completionTokens == completion && r.cost == price
      modifies this
      ensures Valid() && calls == old(calls) + [Call(alias, r)]
      ensures cost == old(cost) + price && errors == old(errors)
    {
      hide PerModel, Tally, Errors, Kept, Aliases, Of, Counted, Entry;
      SuccessIsCounted(Tally(calls), r);
      SuccessIsCounted(Entry(byModel, alias), r);
      CallAdded(calls, Call(alias, r));
      PerModelGrows(byModel, calls, Call(alias, r));
      requests := requests + 1;
      promptTokens := promptTokens + prompt;
      completionTokens := completionTokens + completion;
      cost := cost + price;
      var m := Entry(byModel, alias);
      m := ModelStats(m.requests + 1, m.promptTokens + prompt, m.completionTokens + completion, m.cost + price);
      byModel := byModel[alias := m];
      calls := calls + [Call(alias, r)];
    }

    method RecordError(alias: string, ghost r: Reply)
      requires Valid() && r.Refused?
      modifies this
      ensures Valid() && calls == old(calls) + [Call(alias, r)]
      ensures cost == old(cost) && errors == old(errors) + 1
    {
      hide PerModel, Tally, Errors, Kept, Aliases, Of;
      CallAdded(calls, Call(alias, r));
      PerModelGrows(byModel, calls, Call(alias, r));
      requests := requests + 1;
      errors := errors + 1;
      var m := Entry(byModel, alias);
      byModel := byModel[alias := m.(requests := m.requests + 1)];
      calls := calls + [Call(alias, r)];
    }
  }

  lemma SuccessIsCounted(s: ModelStats, r: Reply)
    requires Served(r)
    ensures Counted(s, r) == ModelStats(s.requests + 1, s.promptTokens + r.promptTokens,
                                        s.completionTokens + r.completionTokens, s.cost + r.cost)
  {
  }

  lemma CallAdded(calls: seq<Call>, c: Call)
    ensures Tally(calls + [c]) == Counted(Tally(calls), c.reply)
    ensures Errors(calls + [c]) == Errors(calls) + if c.reply.Refused? then 1 else 0
  {
    assert (calls + [c])[..|calls|] == calls;
  }

  lemma PerModelGrows(byModel: map<string, ModelStats>, calls: seq<Call>, c: Call)
    requires PerModel(byModel, calls)
    ensures PerModel(byModel[c.alias := Counted(Entry(byModel, c.alias), c.reply)], calls + [c])
  {
    hide Tally, Counted, Kept, Aliases, Entry;
    AliasesGrow(calls, c);
    var byModel' := byModel[c.alias := Counted(Entry(byModel, c.alias), c.reply)];
    forall a | a in byModel'
      ensures byModel'[a] == Tally(Kept(Of(a), calls + [c]))
    {
      OwnCalls(calls, c, a);
      if a == c.alias {
        EntryIsTally(byModel, calls, a);
        CallAdded(Kept(Of(a), calls), c);
      }
    }
  }

  lemma OwnCalls(calls: seq<Call>, c: Call, alias: string)
    ensures Kept(Of(alias), calls + [c]) == if alias == c.alias then Kept(Of(alias), calls) + [c]
            else Kept(Of(alias), calls)
  {
    KeptConcat(Of(alias), calls, [c]);
    KeptOne(Of(alias), c);
  }

  lemma EntryIsTally(byModel: map<string, ModelStats>, calls: seq<Call>, alias: string)
    requires PerModel(byModel, calls)
    ensures Entry(byModel, alias) == Tally(Kept(Of(alias), calls))
  {
    if alias !in byModel {
      NothingToItsName(calls, alias);
    }
  }

  lemma AliasesGrow(calls: seq<Call>, c: Call)
    ensures Aliases(calls + [c]) == Aliases(calls) + {c.alias}
  {
    var calls' := calls + [c];
    assert calls'[|calls|] == c;
    forall a | a in Aliases(calls)
      ensures a in Aliases(calls')
    {
      var i :| 0 <= i < |calls| && calls[i].alias == a;
      assert calls'[i] == calls[i];
    }
  }

  lemma NothingToItsName(calls: seq<Call>, alias: string)
    requires alias !in Aliases(calls)
    ensures Tally(Kept(Of(alias), calls)) == NO_STATS
  {
    var own := Kept(Of(alias), calls);
    if own != [] {
      KeptElements(Of(alias), calls, own[0]);
    }
  }

  function PromptOf(): Call -> int { (c: Call) => PromptTokens(c.reply) }

  function CompletionOf(): Call -> int { (c: Call) => CompletionTokens(c.reply) }

  function BilledOf(): Call -> real { (c: Call) => Billed(c.reply) }

  /** The gateway saw the call. */
  function Reached(): Call -> bool { (c: Call) => !c.reply.Unreachable? }

  /** What is counted over a history: the calls that reached the gateway, and the sums over all calls of
      their own prompt tokens, completion tokens and bills. */
  lemma {:induction false} TallySums(calls: seq<Call>)
    ensures var t := Tally(calls);
            && t.requests == |Kept(Reached(), calls)|
            && t.promptTokens == Total(Mapped(PromptOf(), calls))
            && t.completionTokens == Total(Mapped(CompletionOf(), calls))
            && t.cost == Sum(Mapped(BilledOf(), calls))
  {
    hide Tally, Kept, Total, Sum, Mapped;
    if calls == [] {
      NothingTallied();
    } else {
      var n := |calls| - 1;
      TallySums(calls[..n]);
      assert calls == calls[..n] + [calls[n]];
      CallAdded(calls[..n], calls[n]);
      SumsWithLast(calls[..n], calls[n]);
      CountedAdds(Tally(calls[..n]), calls[n].reply);
    }
  }

  lemma NothingTallied()
    ensures Tally([]) == NO_STATS && Kept(Reached(), []) == [] && Total(Mapped(PromptOf(), [])) == 0
    ensures Total(Mapped(CompletionOf(), [])) == 0 && Sum(Mapped(BilledOf(), [])) == 0.0
  {
  }

  lemma CountedAdds(s: ModelStats, r: Reply)
    ensures var t := Counted(s, r);
            && t.requests == s.requests + (if r.Unreachable? then 0 else 1)
            && t.promptTokens == s.promptTokens + PromptTokens(r)
            && t.completionTokens == s.completionTokens + CompletionTokens(r) && t.cost == s.cost + Billed(r)
  {
  }

  lemma SumsWithLast(calls: seq<Call>, c: Call)
    ensures |Kept(Reached(), calls + [c])| == |Kept(Reached(), calls)| + if c.reply.Unreachable? then 0 else 1
    ensures Total(Mapped(PromptOf(), calls + [c])) == Total(Mapped(PromptOf(), calls)) + PromptTokens(c.reply)
    ensures Total(Mapped(CompletionOf(), calls + [c]))
            == Total(Mapped(CompletionOf(), calls)) + CompletionTokens(c.reply)
    ensures Sum(Mapped(BilledOf(), calls + [c])) == Sum(Mapped(BilledOf(), calls)) + Billed(c.reply)
  {
    hide Kept, Total, Sum, Mapped;
    KeptConcat(Reached(), calls, [c]);
    KeptOne(Reached(), c);
    TotalWithLast(PromptOf(), calls, c);
    TotalWithLast(CompletionOf(), calls, c);
    SumWithLast(BilledOf(), calls, c);
  }

  lemma TotalWithLast(f: Call -> int, calls: seq<Call>, c: Call)
    ensures Total(Mapped(f, calls + [c])) == Total(Mapped(f, calls)) + f(c)
  {
    MappedConcat(f, calls, [c]);
    assert Mapped(f, [c]) == [f(c)];
    TotalConcat(Mapped(f, calls), [f(c)]);
    assert Total([f(c)]) == f(c);
  }

  lemma SumWithLast(f: Call -> real, calls: seq<Call>, c: Call)
    ensures Sum(Mapped(f, calls + [c])) == Sum(Mapped(f, calls)) + f(c)
  {
    MappedConcat(f, calls, [c]);
    assert Mapped(f, [c]) == [f(c)];
    SumConcat(Mapped(f, calls), [f(c)]);
    assert Sum([f(c)]) == f(c);
  }

  // ----- a gateway whose provider answers by a script -----

  type Script = nat -> Reply

  /** What replies `from..to` are billed. */
  function Spend(replies: Script, from: nat, to: nat): real
    decreases to - from
  {
    if from >= to then 0.0 else Spend(replies, from, to - 1) + Billed(replies(to - 1))
  }

  lemma {:induction false} SpendJoins(replies: Script, a: nat, b: nat, c: nat)
    requires a <= b <= c
    ensures Spend(replies, a, b) + Spend(replies, b, c) == Spend(replies, a, c)
    decreases c
  {
    if b < c {
      SpendJoins(replies, a, b, c - 1);
    }
  }

  ghost predicate Priced(replies: Script) {
    forall i :: Billed(replies(i)) >= 0.0
  }

  lemma {:induction false} SpendNonNegative(replies: Script, a: nat, b: nat)
    requires Priced(replies)
    ensures Spend(replies, a, b) >= 0.0
    decreases b
  {
    if a < b {
      SpendNonNegative(replies, a, b - 1);
    }
  }

  /** The gateway as its callers see it. Nothing is assumed of the script, so nothing is assumed of
      the model or of the network either. */
  class Service {
    const replies: Script
    const stats: GatewayStats
    var served: nat

    constructor (script: Script)
      ensures replies == script && served == 0 && fresh(stats) && stats.Valid() && stats.cost == 0.0
    {
      replies := script;
      served := 0;
      stats := new GatewayStats();
    }

    method Chat(alias: string) returns (r: Reply)
      requires stats.Valid()
      modifies this`served, stats
      ensures stats.Valid() && served == old(served) + 1
      ensures r == replies(old(served)) && stats.cost == old(stats.cost) + Billed(r)
    {
      r := replies(served);
      served := served + 1;
      match r
      case Response(_, prompt, completion, cost) => stats.RecordSuccess(alias, prompt, completion, cost, r);
      case Lost(prompt, completion, cost) => stats.RecordSuccess(alias, prompt, completion, cost, r);
      case Refused(_) => stats.RecordError(alias, r);
      case Unreachable =>
    }
  }
}
