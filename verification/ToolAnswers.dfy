/** What the model is told of its tool calls, round by round and over a turn
    (`src/tool_loop.rs`, `src/context/micro_compact.rs`). */
module ToolAnswers {
  import opened Text
  import opened Messages
  import opened ToolLoops
  import opened TurnProperties

  // ---- One round ----

  /** The tool calls of a reply, in order. */
  function Uses(blocks: seq<Block>): (uses: seq<Block>)
    ensures forall k :: 0 <= k < |uses| ==> uses[k].ToolUse?
  {
    if blocks == [] then []
    else Uses(blocks[..|blocks| - 1]) + if blocks[|blocks| - 1].ToolUse? then [blocks[|blocks| - 1]] else []
  }

  /** The k-th result answers the k-th call: what the tool said, or that it
      failed and why. Each tool is run after the ones before it. */
  ghost predicate Answered(env: Env, history: seq<Message>, uses: seq<Block>, results: seq<Block>,
                           outcomes: seq<ToolOutcome>) {
    && |results| == |outcomes| == |uses|
    && forall k :: 0 <= k < |uses| ==> AnsweredAt(env, history, uses, results, outcomes, k)
  }

  ghost predicate AnsweredAt(env: Env, history: seq<Message>, uses: seq<Block>, results: seq<Block>,
                             outcomes: seq<ToolOutcome>, k: nat)
    requires |results| == |outcomes| == |uses| && k < |uses|
  {
    && uses[k].ToolUse? && results[k].ToolResult? && results[k].toolUseId == uses[k].id
    && outcomes[k] == env.tool(history, results[..k], uses[k])
    && match outcomes[k]
       case Output(content) => results[k].content == content && !results[k].isError
       case ToolError(why) => results[k].content == "Error: " + why && results[k].isError
       case UnknownTool => results[k].content == "Error: Unknown tool '" + uses[k].name + "'" && results[k].isError
  }

  function Names(uses: seq<Block>): seq<string>
    requires forall k :: 0 <= k < |uses| ==> uses[k].ToolUse?
  {
    seq(|uses|, k requires 0 <= k < |uses| => uses[k].name)
  }

  predicate SomeSucceeded(outcomes: seq<ToolOutcome>) { exists k :: 0 <= k < |outcomes| && outcomes[k].Output? }

  predicate SomeFailed(outcomes: seq<ToolOutcome>) { exists k :: 0 <= k < |outcomes| && !outcomes[k].Output? }

  lemma {:induction false} ExecutedAnswers(env: Env, history: seq<Message>, content: seq<Block>, used: seq<string>)
    returns (outcomes: seq<ToolOutcome>)
    ensures var x := Execute(env, history, content, used);
            && Answered(env, history, Uses(content), x.results, outcomes)
            && x.used == used + Names(Uses(content))
            && x.hadSuccess == SomeSucceeded(outcomes) && x.hadFailure == SomeFailed(outcomes)
    decreases |content|
  {
    outcomes := [];
    if content == [] {
      assert used + [] == used;
    } else {
      var init, last := content[..|content| - 1], content[|content| - 1];
      outcomes := ExecutedAnswers(env, history, init, used);
      if last.ToolUse? {
        var x := Execute(env, history, init, used);
        var outcome := env.tool(history, x.results, last);
        AnswersPush(env, history, Uses(init), x.results, outcomes, last, outcome);
        MarksPush(outcomes, outcome);
        outcomes := outcomes + [outcome];
        assert Names(Uses(init)) + [last.name] == Names(Uses(content));
        assert used + Names(Uses(init)) + [last.name] == used + (Names(Uses(init)) + [last.name]);
      } else {
        assert Uses(content) == Uses(init);
      }
    }
  }

  lemma MarksPush(outcomes: seq<ToolOutcome>, outcome: ToolOutcome)
    ensures SomeSucceeded(outcomes + [outcome]) == (SomeSucceeded(outcomes) || outcome.Output?)
    ensures SomeFailed(outcomes + [outcome]) == (SomeFailed(outcomes) || !outcome.Output?)
  {
    var all := outcomes + [outcome];
    assert all[|outcomes|] == outcome;
    assert forall k :: 0 <= k < |outcomes| ==> all[k] == outcomes[k];
  }

  lemma AnswersPush(env: Env, history: seq<Message>, uses: seq<Block>, results: seq<Block>, outcomes: seq<ToolOutcome>,
                    use: Block, outcome: ToolOutcome)
    requires Answered(env, history, uses, results, outcomes)
    requires use.ToolUse? && outcome == env.tool(history, results, use)
    ensures Answered(env, history, uses + [use], results + [Answer(use, outcome)], outcomes + [outcome])
  {
    var all := results + [Answer(use, outcome)];
    assert all[..|uses|] == results;
    forall k | 0 <= k < |uses| + 1
      ensures AnsweredAt(env, history, uses + [use], all, outcomes + [outcome], k)
    {
      if k < |uses| {
        assert AnsweredAt(env, history, uses, results, outcomes, k) && all[..k] == results[..k];
      }
    }
  }

  /** What a round that goes on tells the model: the reply, as it was, and one
      message that holds, shortened, an answer to each of its tool calls and then
      the notices. A warning is given when a third round in a row had failures
      only, once in a turn; a round with failures and successes gets one notice,
      a round of failures only another, unless the turn is degraded. */
  lemma ContinuedRoundTells(env: Env, rs: Rounds, history: seq<Message>, r: Response)
    returns (results: seq<Block>, outcomes: seq<ToolOutcome>, notices: seq<Block>)
    requires GuardKeepsClean(env) && RoundFinished(env, rs, history, r).2.Continue?
    ensures var (rs1, history1, _) := RoundFinished(env, rs, history, r);
            var reply, good, bad := Message(Assistant, r.content), SomeSucceeded(outcomes), SomeFailed(outcomes);
            && history1 == history + [reply] + [Message(User, env.shorten(results + notices))]
            && Answered(env, history + [reply], Uses(r.content), results, outcomes)
            && rs1.toolsUsed == rs.toolsUsed + Names(Uses(r.content)) && rs1.rounds == rs.rounds + 1
            && rs1.failures == (if good then 0 else if bad then rs.failures + 1 else rs.failures)
            && rs1.degraded == (rs.degraded || rs1.failures >= 3)
            && notices == (if rs1.degraded && !rs.degraded then [Injected(DegradedWarning)] else [])
                        + (if good && bad then [Injected(ExpectationMixed)]
                           else if bad && !rs1.degraded then [Injected(ExpectationFailed)] else [])
  {
    hide ToolLoops.Spoken, ToolLoops.ResultOf, ToolLoops.Execute, SomeSucceeded, SomeFailed, Answered;
    var history1 := history + [Message(Assistant, r.content)];
    outcomes := ExecutedAnswers(env, history1, r.content, rs.toolsUsed);
    var x := Execute(env, history1, r.content, rs.toolsUsed);
    results := x.results;
    var rs2 := rs.(inputTokens := Add32(rs.inputTokens, GetOr(r.inputTokens, 0)),
                   outputTokens := Add32(rs.outputTokens, GetOr(r.outputTokens, 0)),
                   model := r.model, texts := rs.texts + Spoken(r.content), rounds := rs.rounds + 1);
    notices := Nudged(rs2.(toolsUsed := x.used), x.hadSuccess, x.hadFailure).1;
    assert env.guard(r.content).0 == r.content;
  }

  // ---- A whole turn ----

  /** Shortening changes nothing but what a tool that succeeded said. */
  ghost predicate ShortensOnly(env: Env) {
    forall blocks :: |env.shorten(blocks)| == |blocks| &&
      forall k :: 0 <= k < |blocks| ==> Shortened(blocks[k], env.shorten(blocks)[k])
  }

  predicate Shortened(a: Block, b: Block) {
    b == a || (a.ToolResult? && b.ToolResult? && b.toolUseId == a.toolUseId && !a.isError && !b.isError)
  }

  lemma {:induction false} ShortenedKeeps(a: seq<Block>, b: seq<Block>)
    requires |a| == |b| && forall k :: 0 <= k < |a| ==> Shortened(a[k], b[k])
    ensures ResultIds(a) == ResultIds(b) && Warnings(a) == Warnings(b)
    ensures Succeeds(a) == Succeeds(b) && Fails(a) == Fails(b)
    decreases |a|
  {
    if a != [] {
      ShortenedKeeps(a[..|a| - 1], b[..|b| - 1]);
      assert Shortened(a[|a| - 1], b[|b| - 1]);
      assert forall k :: 0 <= k < |a| ==> Shortened(a[k], b[k]);
    }
  }

  /** So the theorem on the history of a turn applies. */
  lemma ShortensOnlyKeeps(env: Env)
    requires ShortensOnly(env)
    ensures ShortenKeeps(env)
  {
    forall blocks
      ensures ResultIds(env.shorten(blocks)) == ResultIds(blocks) && Warnings(env.shorten(blocks)) == Warnings(blocks)
    {
      ShortenedKeeps(blocks, env.shorten(blocks));
    }
  }

  /** Some result among `blocks` is of a tool that succeeded, or that failed. */
  predicate Succeeds(blocks: seq<Block>) {
    exists k :: 0 <= k < |blocks| && blocks[k].ToolResult? && !blocks[k].isError
  }

  predicate Fails(blocks: seq<Block>) { exists k :: 0 <= k < |blocks| && blocks[k].ToolResult? && blocks[k].isError }

  /** Messages from `from` on that report a success. */
  function Successes(history: seq<Message>, from: nat): nat
    decreases |history|
  {
    if |history| <= from then 0
    else
      var last := history[|history| - 1];
      Successes(history[..|history| - 1], from) + if last.role == User && Succeeds(last.blocks) then 1 else 0
  }

  /** Messages from `from` on that report failures only. */
  function Defeats(history: seq<Message>, from: nat): nat
    decreases |history|
  {
    if |history| <= from then 0
    else
      var last := history[|history| - 1];
      Defeats(history[..|history| - 1], from) +
      if last.role == User && Fails(last.blocks) && !Succeeds(last.blocks) then 1 else 0
  }

  /** Three rounds in a row with failures only: from some point on three messages
      report failures only and none a success. */
  ghost predicate ThreeInARow(history: seq<Message>, from: nat) {
    exists i, n :: from <= i <= n <= |history| && Successes(history[..n], i) == 0 && Defeats(history[..n], i) >= 3
  }

  /** How many of the last rounds had failures only. */
  ghost predicate IsStreak(history: seq<Message>, from: nat, failures: nat) {
    && from <= |history|
    && (exists i :: from <= i <= |history| && Successes(history, i) == 0 && Defeats(history, i) == failures)
    && (forall i :: from <= i <= |history| && Successes(history, i) == 0 ==> Defeats(history, i) <= failures)
  }

  lemma CountsPush(history: seq<Message>, from: nat, m: Message)
    ensures from <= |history| ==>
              && Successes(history + [m], from) ==
                 Successes(history, from) + (if m.role == User && Succeeds(m.blocks) then 1 else 0)
              && Defeats(history + [m], from) == Defeats(history, from) +
                 if m.role == User && Fails(m.blocks) && !Succeeds(m.blocks) then 1 else 0
    ensures from > |history| ==> Successes(history + [m], from) == 0 && Defeats(history + [m], from) == 0
  {
    assert (history + [m])[..|history + [m]| - 1] == history;
  }

  lemma StreakPush(history: seq<Message>, from: nat, failures: nat, m: Message)
    requires IsStreak(history, from, failures)
    ensures IsStreak(history + [m], from,
                     if m.role != User then failures
                     else if Succeeds(m.blocks) then 0 else if Fails(m.blocks) then failures + 1 else failures)
  {
    hide Successes, Defeats, Succeeds, Fails;
    forall i | from <= i <= |history| + 1
      ensures i <= |history| ==>
                && Successes(history + [m], i) ==
                   Successes(history, i) + (if m.role == User && Succeeds(m.blocks) then 1 else 0)
                && Defeats(history + [m], i) == Defeats(history, i) +
                   if m.role == User && Fails(m.blocks) && !Succeeds(m.blocks) then 1 else 0
      ensures i == |history| + 1 ==> Successes(history + [m], i) == 0 && Defeats(history + [m], i) == 0
    {
      CountsPush(history, i, m);
    }
    if m.role == User && Succeeds(m.blocks) {
      assert Successes(history + [m], |history| + 1) == 0;
    } else {
      var i :| from <= i <= |history| && Successes(history, i) == 0 && Defeats(history, i) == failures;
      assert Successes(history + [m], i) == 0;
    }
  }

  lemma ThreePush(history: seq<Message>, from: nat, m: Message, failures: nat)
    requires from <= |history| && IsStreak(history + [m], from, failures)
    ensures ThreeInARow(history + [m], from) <==> ThreeInARow(history, from) || failures >= 3
  {
    hide Successes, Defeats;
    var all := history + [m];
    assert all[..|all|] == all;
    forall n | 0 <= n <= |history| ensures all[..n] == history[..n] {
    }
    if ThreeInARow(history, from) {
      var i, n :| from <= i <= n <= |history| && Successes(history[..n], i) == 0 && Defeats(history[..n], i) >= 3;
      assert Successes(all[..n], i) == 0;
    }
    if failures >= 3 {
      var i :| from <= i <= |all| && Successes(all, i) == 0 && Defeats(all, i) == failures;
      assert Successes(all[..|all|], i) == 0;
    }
    if ThreeInARow(all, from) {
      var i, n :| from <= i <= n <= |all| && Successes(all[..n], i) == 0 && Defeats(all[..n], i) >= 3;
      if n <= |history| { assert Successes(history[..n], i) == 0; }
    }
  }

  /** Between rounds: the count is the streak, and the turn is degraded if there
      ever were three rounds in a row with failures only. */
  ghost predicate Tracks(rs: Rounds, history: seq<Message>, from: nat) {
    IsStreak(history, from, rs.failures) && (rs.degraded <==> ThreeInARow(history, from))
  }

  lemma AnswersMark(env: Env, history: seq<Message>, uses: seq<Block>, results: seq<Block>, outcomes: seq<ToolOutcome>)
    requires Answered(env, history, uses, results, outcomes)
    ensures Succeeds(results) == SomeSucceeded(outcomes) && Fails(results) == SomeFailed(outcomes)
  {
    forall k | 0 <= k < |uses|
      ensures results[k].ToolResult? && (outcomes[k].Output? <==> !results[k].isError)
    {
      assert AnsweredAt(env, history, uses, results, outcomes, k);
    }
    if k :| 0 <= k < |outcomes| && outcomes[k].Output? { assert !results[k].isError; }
    if k :| 0 <= k < |outcomes| && !outcomes[k].Output? { assert results[k].isError; }
    if k :| 0 <= k < |results| && results[k].ToolResult? && !results[k].isError { assert outcomes[k].Output?; }
    if k :| 0 <= k < |results| && results[k].ToolResult? && results[k].isError { assert !outcomes[k].Output?; }
  }

  lemma NoticesMarkNothing(results: seq<Block>, notices: seq<Block>)
    requires forall k :: 0 <= k < |notices| ==> !notices[k].ToolResult?
    ensures Succeeds(results + notices) == Succeeds(results) && Fails(results + notices) == Fails(results)
  {
    var all := results + notices;
    assert forall k :: 0 <= k < |results| ==> all[k] == results[k];
    if k :| 0 <= k < |all| && all[k].ToolResult? && !all[k].isError { assert k < |results| && results[k] == all[k]; }
    if k :| 0 <= k < |all| && all[k].ToolResult? && all[k].isError { assert k < |results| && results[k] == all[k]; }
  }

  lemma RoundTracks(env: Env, rs: Rounds, history: seq<Message>, from: nat, r: Response)
    requires GuardKeepsClean(env) && ShortensOnly(env) && Tracks(rs, history, from)
    ensures var (rs1, history1, _) := RoundFinished(env, rs, history, r);
            from <= |history1| && Tracks(rs1, history1, from)
  {
    hide ToolLoops.RoundFinished, IsStreak, ThreeInARow, Succeeds, Fails, SomeSucceeded, SomeFailed, Answered, Uses;
    var (rs1, history1, outcome) := RoundFinished(env, rs, history, r);
    StreakFits(history, from, rs.failures);
    if outcome.Continue? {
      var results, outcomes, notices := ContinuedRoundTells(env, rs, history, r);
      var reply, answer := Message(Assistant, r.content), Message(User, env.shorten(results + notices));
      AnswersMark(env, history + [reply], Uses(r.content), results, outcomes);
      NoticesMarkNothing(results, notices);
      ShortenedMarks(env, results + notices);
      StreakPush(history, from, rs.failures, reply);
      ThreePush(history, from, reply, rs.failures);
      StreakPush(history + [reply], from, rs.failures, answer);
      ThreePush(history + [reply], from, answer, rs1.failures);
      DegradedByThen(rs, history, from);
    } else {
      LastRoundAppends(env, rs, history, r);
      LastRoundKeeps(env, rs, history, r);
      var reply := Message(Assistant, env.guard(r.content).0);
      StreakPush(history, from, rs.failures, reply);
      ThreePush(history, from, reply, rs.failures);
      DegradedByThen(rs, history, from);
    }
  }

  lemma StreakFits(history: seq<Message>, from: nat, failures: nat)
    requires IsStreak(history, from, failures)
    ensures from <= |history|
  {
  }

  lemma ShortenedMarks(env: Env, blocks: seq<Block>)
    requires ShortensOnly(env)
    ensures Succeeds(env.shorten(blocks)) == Succeeds(blocks) && Fails(env.shorten(blocks)) == Fails(blocks)
  {
    ShortenedKeeps(blocks, env.shorten(blocks));
  }

  lemma LastRoundKeeps(env: Env, rs: Rounds, history: seq<Message>, r: Response)
    requires RoundFinished(env, rs, history, r).2.TurnOver?
    ensures RoundFinished(env, rs, history, r).0.failures == rs.failures
  {
    hide ToolLoops.Spoken, ToolLoops.ResultOf, ToolLoops.Execute, ToolLoops.Nudged;
  }

  /** A streak of three has degraded the turn. */
  lemma DegradedByThen(rs: Rounds, history: seq<Message>, from: nat)
    requires Tracks(rs, history, from)
    ensures rs.failures >= 3 ==> rs.degraded
  {
    assert history[..|history|] == history;
  }

  /** In every turn, from the point where it begins: it is degraded exactly when
      there were three rounds in a row with failures only. */
  lemma {:induction false} DegradedIffThreeInARow(env: Env, rs: Rounds, history: seq<Message>, from: nat, calls: nat)
    requires GuardKeepsClean(env) && ShortensOnly(env) && rs.rounds <= env.maxRounds && Tracks(rs, history, from)
    ensures var turn := Loop(env, rs, history, calls);
            turn.rs.degraded <==> ThreeInARow(turn.history, from)
    decreases env.maxRounds - rs.rounds
  {
    hide ToolLoops.RoundFinished, IsStreak, ThreeInARow;
    if env.invoke(history).Ok? {
      var r := env.invoke(history).value;
      var (rs1, history1, outcome) := RoundFinished(env, rs, history, r);
      RoundTracks(env, rs, history, from, r);
      ContinueCounts(env, rs, history, r);
      if outcome.Continue? { DegradedIffThreeInARow(env, rs1, history1, from, calls + 1); }
    }
  }

  /** A whole turn is degraded exactly when three rounds in a row had failures only. */
  lemma TurnDegradesIff(env: Env, history: seq<Message>)
    requires GuardKeepsClean(env) && ShortensOnly(env)
    ensures var turn := Loop(env, NO_ROUNDS, history, 0);
            turn.rs.degraded <==> ThreeInARow(turn.history, |history|)
  {
    TurnBegins(history);
    DegradedIffThreeInARow(env, NO_ROUNDS, history, |history|, 0);
  }

  /** A turn that has just begun tracks. */
  lemma TurnBegins(history: seq<Message>)
    ensures Tracks(NO_ROUNDS, history, |history|)
  {
    assert Successes(history, |history|) == 0 && Defeats(history, |history|) == 0;
    assert history[..|history|] == history;
  }

  // ---- What a turn returns besides its text ----

  /** The response that the reply at `i` came from. */
  function ResponseAt(env: Env, history: seq<Message>, i: nat): Result<Response>
    requires i <= |history|
  {
    env.invoke(history[..i])
  }

  /** Tokens that the responses from index `from` on report. */
  function TokensIn(env: Env, history: seq<Message>, from: nat): nat
    decreases |history|
  {
    if |history| <= from then 0
    else
      var n := |history| - 1;
      var r := ResponseAt(env, history, n);
      TokensIn(env, history[..n], from) +
      if history[n].role == Assistant && r.Ok? && r.value.inputTokens.Some? then r.value.inputTokens.value else 0
  }

  function TokensOut(env: Env, history: seq<Message>, from: nat): nat
    decreases |history|
  {
    if |history| <= from then 0
    else
      var n := |history| - 1;
      var r := ResponseAt(env, history, n);
      TokensOut(env, history[..n], from) +
      if history[n].role == Assistant && r.Ok? && r.value.outputTokens.Some? then r.value.outputTokens.value else 0
  }

  /** Replies from index `from` on that were kept whole and asked for tools. */
  function ToolRounds(env: Env, history: seq<Message>, from: nat): nat
    decreases |history|
  {
    if |history| <= from then 0
    else
      var n := |history| - 1;
      var r := ResponseAt(env, history, n);
      ToolRounds(env, history[..n], from) +
      if history[n].role == Assistant && r.Ok? && r.value.stop == ToolUseStop && !env.guard(r.value.content).1
      then 1 else 0
  }

  /** Names of the tools called by the replies that were answered. */
  function UsedIn(history: seq<Message>, from: nat): seq<string>
    decreases |history|
  {
    if |history| <= from + 1 then []
    else
      var n := |history| - 1;
      UsedIn(history[..n], from) + if history[n].role == User then Names(Uses(history[n - 1].blocks)) else []
  }

  ghost predicate Totals(env: Env, rs: Rounds, history: seq<Message>, from: nat) {
    && from <= |history| && rs.toolsUsed == UsedIn(history, from) && rs.rounds == ToolRounds(env, history, from)
    && rs.inputTokens == TokensIn(env, history, from) % 0x1_0000_0000
    && rs.outputTokens == TokensOut(env, history, from) % 0x1_0000_0000
  }

  lemma ReplyCounts(env: Env, history: seq<Message>, from: nat, m: Message)
    requires from <= |history| && m.role == Assistant && env.invoke(history).Ok?
    ensures var r, more := env.invoke(history).value, history + [m];
            && TokensIn(env, more, from) == TokensIn(env, history, from) + GetOr(r.inputTokens, 0)
            && TokensOut(env, more, from) == TokensOut(env, history, from) + GetOr(r.outputTokens, 0)
            && ToolRounds(env, more, from) ==
               ToolRounds(env, history, from) + (if r.stop == ToolUseStop && !env.guard(r.content).1 then 1 else 0)
            && UsedIn(more, from) == UsedIn(history, from)
  {
    assert (history + [m])[..|history|] == history;
    assert UsedIn(history, from) + [] == UsedIn(history, from);
    if |history| == from { assert UsedIn(history + [m], from) == []; }
  }

  lemma AnswerCounts(env: Env, history: seq<Message>, from: nat, reply: Message, m: Message)
    requires from <= |history| && m.role == User
    ensures var before, more := history + [reply], history + [reply] + [m];
            && TokensIn(env, more, from) == TokensIn(env, before, from)
            && TokensOut(env, more, from) == TokensOut(env, before, from)
            && ToolRounds(env, more, from) == ToolRounds(env, before, from)
            && UsedIn(more, from) == UsedIn(before, from) + Names(Uses(reply.blocks))
  {
    assert (history + [reply] + [m])[..|history| + 1] == history + [reply];
  }

  /** What the last round of a turn returns. */
  ghost predicate Ends(env: Env, turn: Turn, from: nat) {
    && turn.result.Ok? && |turn.history| > from
    && var n, result := |turn.history| - 1, turn.result.value;
       var last := ResponseAt(env, turn.history, n);
       && last.Ok?
       && var r := last.value;
          var (kept, cut) := env.guard(r.content);
          && turn.history[n] == Message(Assistant, kept)
          && result.model == r.model && result.wasTruncated == cut
          && result.circuitBreakerFired == (!cut && r.stop == ToolUseStop)
          && (result.circuitBreakerFired ==> result.toolRounds == env.maxRounds + 1)
          && result.warnings == (if cut || r.stop == ToolUseStop || r.stop.Other? then []
                                 else env.claims(kept, UsedIn(turn.history, from)))
          && result.degraded == turn.rs.degraded
          && result.toolRounds == ToolRounds(env, turn.history, from)
          && result.inputTokens == TokensIn(env, turn.history, from) % 0x1_0000_0000
          && result.outputTokens == TokensOut(env, turn.history, from) % 0x1_0000_0000
  }

  lemma SumsWrap(a: nat, b: nat)
    ensures Add32(a % 0x1_0000_0000, b) == (a + b) % 0x1_0000_0000
  {
  }

  lemma RoundTotals(env: Env, rs: Rounds, history: seq<Message>, from: nat)
    requires GuardKeepsClean(env) && Totals(env, rs, history, from) && env.invoke(history).Ok?
    requires rs.rounds <= env.maxRounds
    ensures var (rs1, history1, outcome) := RoundFinished(env, rs, history, env.invoke(history).value);
            && Totals(env, rs1, history1, from)
            && (outcome.TurnOver? ==> Ends(env, Turn(Ok(outcome.result), rs1, history1, 0), from))
  {
    hide TokensIn, TokensOut, ToolRounds, UsedIn, ToolLoops.Spoken, ToolLoops.Join, ToolLoops.Execute;
    var r := env.invoke(history).value;
    var (rs1, history1, outcome) := RoundFinished(env, rs, history, r);
    var (kept, cut) := env.guard(r.content);
    var reply := Message(Assistant, kept);
    ReplyCounts(env, history, from, reply);
    SumsWrap(TokensIn(env, history, from), GetOr(r.inputTokens, 0));
    SumsWrap(TokensOut(env, history, from), GetOr(r.outputTokens, 0));
    assert (history + [reply])[..|history|] == history;
    if outcome.Continue? {
      hide ToolLoops.Add32;
      var results, outcomes, notices := ContinuedRoundTells(env, rs, history, r);
      AnswerCounts(env, history, from, reply, Message(User, env.shorten(results + notices)));
    }
  }

  lemma {:induction false} TurnTotals(env: Env, rs: Rounds, history: seq<Message>, from: nat, calls: nat)
    requires GuardKeepsClean(env) && Totals(env, rs, history, from) && rs.rounds <= env.maxRounds
    ensures var turn := Loop(env, rs, history, calls);
            turn.result.Ok? ==> Ends(env, turn, from)
    decreases env.maxRounds - rs.rounds
  {
    hide ToolLoops.RoundFinished, Totals;
    if env.invoke(history).Ok? {
      var r := env.invoke(history).value;
      var (rs1, history1, outcome) := RoundFinished(env, rs, history, r);
      RoundTotals(env, rs, history, from);
      ContinueCounts(env, rs, history, r);
      if outcome.Continue? { TurnTotals(env, rs1, history1, from, calls + 1); }
    }
  }

  /** A whole turn that succeeds: the counts and flags it returns, in terms of the
      history it leaves and the responses its replies came from. */
  lemma TurnReturns(env: Env, history: seq<Message>)
    requires GuardKeepsClean(env)
    ensures var turn := Loop(env, NO_ROUNDS, history, 0);
            turn.result.Ok? ==> Ends(env, turn, |history|)
  {
    TurnTotals(env, NO_ROUNDS, history, |history|, 0);
  }

  // ---- The text a turn returns ----

  /** Text with something to read in it. */
  predicate Says(block: Block) { block.TextBlock? && exists c :: c in block.text && !IsWhitespace(c) }

  function SayingsOf(blocks: seq<Block>): seq<string> {
    if blocks == [] then []
    else SayingsOf(blocks[..|blocks| - 1]) + if Says(blocks[|blocks| - 1]) then [blocks[|blocks| - 1].text] else []
  }

  /** The texts of the replies from index `from` on, but for blank ones. */
  function Sayings(history: seq<Message>, from: nat): seq<string>
    decreases |history|
  {
    if |history| <= from then []
    else
      var last := history[|history| - 1];
      Sayings(history[..|history| - 1], from) + if last.role == Assistant then SayingsOf(last.blocks) else []
  }

  /** A blank line between each text and the next. */
  function Apart(texts: seq<string>): string {
    if texts == [] then ""
    else if |texts| == 1 then texts[0]
    else Apart(texts[..|texts| - 1]) + "\n\n" + texts[|texts| - 1]
  }

  lemma {:induction false} SpokenPush(blocks: seq<Block>, last: Block)
    ensures Spoken(blocks + [last]) == Spoken(blocks) + if Says(last) then [last.text] else []
  {
    if blocks == [] {
      assert ([] + [last])[1..] == [];
    } else {
      assert (blocks + [last])[1..] == blocks[1..] + [last];
      SpokenPush(blocks[1..], last);
    }
  }

  lemma {:induction false} SpokenIsSaid(blocks: seq<Block>)
    ensures Spoken(blocks) == SayingsOf(blocks)
    decreases |blocks|
  {
    if blocks != [] {
      var init := blocks[..|blocks| - 1];
      SpokenIsSaid(init);
      SpokenPush(init, blocks[|blocks| - 1]);
      assert init + [blocks[|blocks| - 1]] == blocks;
    }
  }

  lemma {:induction false} AllSpokenIsSaid(history: seq<Message>, from: nat)
    requires from <= |history|
    ensures SpokenIn(history, from) == Sayings(history, from)
    decreases |history|
  {
    if from < |history| {
      AllSpokenIsSaid(history[..|history| - 1], from);
      SpokenIsSaid(history[|history| - 1].blocks);
    }
  }

  lemma {:induction false} JoinPush(texts: seq<string>, last: string)
    requires texts != []
    ensures Join(texts + [last]) == Join(texts) + "\n\n" + last
  {
    assert (texts + [last])[1..] == texts[1..] + [last];
    if |texts| > 1 {
      JoinPush(texts[1..], last);
      Groups(texts[0], Join(texts[1..]), last);
    }
  }

  lemma Groups(a: string, b: string, c: string)
    ensures a + "\n\n" + (b + "\n\n" + c) == a + "\n\n" + b + "\n\n" + c
  {
  }

  lemma {:induction false} JoinIsApart(texts: seq<string>)
    ensures Join(texts) == Apart(texts)
    decreases |texts|
  {
    if |texts| > 1 {
      var init := texts[..|texts| - 1];
      JoinIsApart(init);
      JoinPush(init, texts[|texts| - 1]);
      assert init + [texts[|texts| - 1]] == texts;
    }
  }

  /** The text that a turn returns is that of its replies as the history has
      them, each text that is not blank, with a blank line between. */
  lemma TurnReads(env: Env, history: seq<Message>)
    ensures var turn := Loop(env, NO_ROUNDS, history, 0);
            turn.result.Ok? ==> turn.result.value.text == Apart(Sayings(turn.history, |history|))
  {
    var turn := Loop(env, NO_ROUNDS, history, 0);
    assert SpokenIn(history, |history|) == [];
    ResultIsTheHistory(env, NO_ROUNDS, history, |history|, 0);
    AllSpokenIsSaid(turn.history, |history|);
    JoinIsApart(SpokenIn(turn.history, |history|));
  }
}
