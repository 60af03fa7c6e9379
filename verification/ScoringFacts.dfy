/** What the outcome of an example is made of: its attempts, its turn, its judge replies (eval/harness.py). */
module ScoringFacts {
  import opened Wrappers
  import opened Aggregates
  import opened Gateway
  import opened Metrics
  import Gate
  import opened EvalRun
  import L = AgentLoop

  // ----- the attempts -----

  /** A refusal that is worth another attempt. */
  predicate Transient(turn: L.Turn) {
    turn.Raised? && turn.reply.Refused? && (turn.reply.status == 429 || turn.reply.status >= 500)
  }

  /** Attempt `k`, counted from 0, is a turn of its own, begun with the reply after the one before. */
  ghost predicate Attempts(x: Example, s: Setup, i: nat, replies: Script, start: nat, first: nat, turns: seq<L.Turn>,
      at: seq<nat>) {
    && 0 < |turns| == |at| - 1 && at[0] == start
    && forall k :: 0 <= k < |turns| ==>
         && turns[k] == L.TurnOf(x.question, replies, s.tools(i, first + k), at[k], s.maxSteps)
         && at[k + 1] == at[k] + turns[k].calls
         && (k + 1 < |turns| ==> Transient(turns[k]))
  }

  /** An example is attempted up to three times, again only after a 429 or a 5xx, and no further once an
      attempt returned or failed in another way; the last attempt is the example's. */
  lemma {:induction false} AttemptsAreRetries(x: Example, s: Setup, i: nat, replies: Script, start: nat, attempt: nat)
    returns (turns: seq<L.Turn>, at: seq<nat>)
    requires 1 <= attempt <= 3
    ensures Attempts(x, s, i, replies, start, attempt, turns, at) && |turns| <= 4 - attempt
    ensures var a := TurnWithRetries(x, s, i, replies, start, attempt);
            && a.turn == turns[|turns| - 1] && a.end == at[|turns|]
            && (Transient(a.turn) ==> |turns| == 4 - attempt)
    decreases 3 - attempt
  {
    hide L.TurnOf, Spend, TurnWithRetries;
    var turn := L.TurnOf(x.question, replies, s.tools(i, attempt), start, s.maxSteps);
    RetryStep(x, s, i, replies, start, attempt, turn);
    if Transient(turn) && attempt < 3 {
      var later, ends := AttemptsAreRetries(x, s, i, replies, start + turn.calls, attempt + 1);
      turns, at := [turn] + later, [start] + ends;
      forall k | 0 <= k < |turns|
        ensures turns[k] == L.TurnOf(x.question, replies, s.tools(i, attempt + k), at[k], s.maxSteps)
        ensures at[k + 1] == at[k] + turns[k].calls && (k + 1 < |turns| ==> Transient(turns[k]))
      {
        if k > 0 {
          assert turns[k] == later[k - 1] && at[k] == ends[k - 1] && at[k + 1] == ends[k];
        }
      }
    } else {
      turns, at := [turn], [start, start + turn.calls];
    }
  }

  // ----- the judge -----

  /** What the judge's reply to call `t` parses to. */
  function ScoreAt(parse: Parse, replies: Script, t: nat): Option<int> {
    if replies(t).Response? then parse(L.Joined(replies(t).content)) else None
  }

  /** Calls `t` to `next` grade one dimension: one reply with a score, or one without and one more. */
  ghost predicate GradedBy(parse: Parse, replies: Script, t: nat, next: nat, score: Option<int>) {
    && replies(t).Response?
    && if ScoreAt(parse, replies, t).Some? then next == t + 1 && score == ScoreAt(parse, replies, t)
       else next == t + 2 && replies(t + 1).Response? && score == ScoreAt(parse, replies, t + 1)
  }

  /** Where each retrieved chunk came from, and by which search. */
  function Places(refs: seq<L.RetrievedRef>): seq<Retrieved> {
    seq(|refs|, j requires 0 <= j < |refs| => Retrieved(refs[j].sourcePath, refs[j].callIndex))
  }

  /** Of an outcome that ends with the reply before `end`: a turn that raised leaves no score at all; one
      that returned leaves its own length, truncation and searches, and with a judge the first grade
      after the turn is faithfulness and the next, which ends at the last reply used, is quality; the
      judge parsed exactly if both have a score. */
  ghost predicate MadeOf(o: Outcome, x: Example, s: Setup, i: nat, replies: Script, turn: L.Turn, after: nat,
      middle: nat,
      end: nat)
  {
    && o.key == x.key && o.latency == s.latency(i)
    && (turn.Raised? ==>
          && end == after && o.error.Some? && o.cost == 0.0 && o.hit.None? && o.citation.None?
          && o.faithfulness.None? && o.quality.None? && o.judgeParseOk.None? && !o.searched)
    && (turn.Returned? ==>
          && o.error.None? && o.lenTokens == turn.result.finalTokens && o.truncated == turn.result.truncated
          && (o.searched <==> turn.result.retrievalCalls != [])
          && o.citation == Some(s.citation(turn.result.answer, turn.result.retrieved))
          && (o.hitSource == NOT_APPLICABLE <==> !x.answerable)
          && (x.answerable ==>
                && o.hit == HitAtK(x.expected, Places(turn.result.retrieved), s.k, o.searched)
                && o.anyCallHit == AnyCallHit(x.expected, Places(turn.result.retrieved)))
          && (!x.answerable ==> o.hit.None? && !o.anyCallHit))
    && (turn.Returned? && s.judge.None? ==>
          o.faithfulness.None? && o.quality.None? && o.judgeParseOk.None? && end == after)
    && (turn.Returned? && s.judge.Some? ==>
          && GradedBy(s.judge.value, replies, after, middle, o.faithfulness)
          && GradedBy(s.judge.value, replies, middle, end, o.quality)
          && o.judgeParseOk == Some(o.faithfulness.Some? && o.quality.Some?))
  }

  /** A scored outcome is made of its own last attempt and the judge replies that follow it. */
  lemma OutcomeIsItsReplies(x: Example, s: Setup, i: nat, replies: Script, start: nat)
    returns (turns: seq<L.Turn>, at: seq<nat>, middle: nat)
    requires ScoringOf(x, s, i, replies, start).Scored?
    ensures Attempts(x, s, i, replies, start, 1, turns, at) && 0 < |turns| == |at| - 1 <= 3
    ensures var r := ScoringOf(x, s, i, replies, start);
            MadeOf(r.outcome, x, s, i, replies, turns[|turns| - 1], at[|turns|], middle, r.end)
  {
    hide TurnWithRetries, L.TurnOf, L.Joined, HitAtK, AnyCallHit, Attempts;
    turns, at := AttemptsAreRetries(x, s, i, replies, start, 1);
    AttemptsShape(x, s, i, replies, start, turns, at);
    if turns[|turns| - 1].Returned? {
      assert Places(turns[|turns| - 1].result.retrieved) == Mapped(ToRetrieved(), turns[|turns| - 1].result.retrieved);
    }
    middle :=
      if turns[|turns| - 1].Returned? && s.judge.Some? then GradeOf(s.judge.value, replies, at[|turns|]).end else 0;
  }

  lemma AttemptsShape(x: Example, s: Setup, i: nat, replies: Script, start: nat, turns: seq<L.Turn>, at: seq<nat>)
    requires Attempts(x, s, i, replies, start, 1, turns, at)
    ensures 0 < |turns| == |at| - 1
  {
  }

  /** In every run, each outcome is made of its own example's attempts and judge replies, which begin
      where those of the example before ended. */
  lemma OutcomesOfARun(w: World, limit: Option<(real, real)>, golden: map<string, nat>, r: RunResult,
      rows: map<nat, Gate.Row>, i: nat)
    returns (turns: seq<L.Turn>, at: seq<nat>, middle: nat)
    requires AsSpecified(w, limit, golden, r, rows) && i < |r.outcomes|
    ensures |r.outcomes| <= |w.examples| && Pos(w, 0) == w.start
    ensures Attempts(w.examples[i], w.setup, i, w.replies, Pos(w, i), 1, turns, at) && 0 < |turns| == |at| - 1 <= 3
    ensures MadeOf(r.outcomes[i], w.examples[i], w.setup, i, w.replies, turns[|turns| - 1], at[|turns|], middle,
            Pos(w, i + 1))
  {
    hide ScoringOf, StopsAt, Gate.Stored, OutcomesOf, LatestAt, Attempts, MadeOf;
    var n := |r.outcomes|;
    SurvivorsAreScored(w, golden, r.outcomes, rows, n);
    OutcomeAt(w, n, i);
    PositionStep(w, i);
    turns, at, middle := OutcomeIsItsReplies(w.examples[i], w.setup, i, w.replies, Pos(w, i));
  }
}
