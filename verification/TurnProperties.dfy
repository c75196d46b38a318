/** What a whole turn of the tool loop keeps, buffered or streamed. */
module TurnProperties {
  import opened Text
  import opened Messages
  import opened ToolLoops
  import SpeechGates

  // ---- What the loop is told about its collaborators ----

  /** The guard leaves a reply it does not truncate as it is. */
  ghost predicate GuardKeepsClean(env: Env) {
    forall blocks :: !env.guard(blocks).1 ==> env.guard(blocks).0 == blocks
  }

  function UseIds(blocks: seq<Block>): seq<string> {
    if blocks == [] then []
    else UseIds(blocks[..|blocks| - 1]) + if blocks[|blocks| - 1].ToolUse? then [blocks[|blocks| - 1].id] else []
  }

  function ResultIds(blocks: seq<Block>): seq<string> {
    if blocks == [] then []
    else ResultIds(blocks[..|blocks| - 1]) +
         if blocks[|blocks| - 1].ToolResult? then [blocks[|blocks| - 1].toolUseId] else []
  }

  /** Degraded-state warnings among `blocks`. */
  function Warnings(blocks: seq<Block>): nat {
    if blocks == [] then 0
    else Warnings(blocks[..|blocks| - 1]) + if blocks[|blocks| - 1] == Injected(DegradedWarning) then 1 else 0
  }

  /** Shortening results keeps their ids and leaves text blocks alone. */
  ghost predicate ShortenKeeps(env: Env) {
    forall blocks :: ResultIds(env.shorten(blocks)) == ResultIds(blocks)
           && Warnings(env.shorten(blocks)) == Warnings(blocks)
  }

  // ---- The two loops agree ----

  lemma {:induction false} DriveGetsOutcome(sp: Speaker, events: seq<Timed>)
    requires sp.Valid()
    ensures Drive(sp, events).got == Outcome(events)
    decreases |events|
  {
    if events != [] {
      hide ToolLoops.Tell, ToolLoops.Boundary;
      DriveGetsOutcome(sp, events[..|events| - 1]);
    }
  }

  /** Given the same responses, the buffered and the streaming loop return the
      same result and leave the same history, whatever the sink does. */
  lemma {:induction false} LoopsAgree(env: Env, rs: Rounds, history: seq<Message>, sp: Speaker, calls: nat)
    requires rs.rounds <= env.maxRounds && sp.Valid()
    requires forall h :: ResponseOf(env.stream(h)) == env.invoke(h)
    ensures StreamLoop(env, rs, history, sp, calls).0 == Loop(env, rs, history, calls)
    decreases env.maxRounds - rs.rounds
  {
    hide ToolLoops.RoundFinished, ToolLoops.BeforeFinish, ToolLoops.AfterFinish, ToolLoops.RoundOpened, ToolLoops.Drive;
    DriveGetsOutcome(RoundOpened(sp, rs.rounds), env.stream(history));
    assert ResponseOf(env.stream(history)) == env.invoke(history);
    var s := StreamRound(env, rs, history, sp);
    if s.outcome == Ok(Continue) {
      StreamContinueCounts(env, rs, history, sp);
      LoopsAgree(env, s.rs, s.history, s.sp, calls + 1);
    }
  }

  // ---- Rounds ----

  /** A turn makes at most one provider call more than it may have tool rounds. */
  lemma {:induction false} CallsAreBounded(env: Env, rs: Rounds, history: seq<Message>, calls: nat)
    requires rs.rounds <= env.maxRounds
    ensures calls < Loop(env, rs, history, calls).calls <= calls + env.maxRounds - rs.rounds + 1
    decreases env.maxRounds - rs.rounds
  {
    hide ToolLoops.RoundFinished;
    if env.invoke(history).Ok? {
      var r := env.invoke(history).value;
      var (rs1, history1, outcome) := RoundFinished(env, rs, history, r);
      ContinueCounts(env, rs, history, r);
      if outcome.Continue? {
        CallsAreBounded(env, rs1, history1, calls + 1);
      }
    }
  }

  /** The streaming loop too. */
  lemma {:induction false} StreamCallsAreBounded(env: Env, rs: Rounds, history: seq<Message>, sp: Speaker, calls: nat)
    requires rs.rounds <= env.maxRounds && sp.Valid()
    ensures calls < StreamLoop(env, rs, history, sp, calls).0.calls <= calls + env.maxRounds - rs.rounds + 1
    decreases env.maxRounds - rs.rounds
  {
    hide ToolLoops.StreamRound;
    var s := StreamRound(env, rs, history, sp);
    if s.outcome == Ok(Continue) {
      StreamContinueCounts(env, rs, history, sp);
      StreamCallsAreBounded(env, s.rs, s.history, s.sp, calls + 1);
    }
  }

  /** The streaming loop's forecast is exact: it announces the tool calls of a
      round if and only if the round goes on. */
  lemma SurvivesIffContinues(env: Env, rs: Rounds, history: seq<Message>, r: Response)
    ensures Survives(env, r, rs.rounds) <==> RoundFinished(env, rs, history, r).2.Continue?
  {
    hide Execute, Nudged, Spoken, ResultOf;
  }

  lemma {:induction false} ExecuteAnswers(env: Env, history: seq<Message>, content: seq<Block>, used: seq<string>)
    ensures var x := Execute(env, history, content, used);
            ResultIds(x.results) == UseIds(content) && Warnings(x.results) == 0
    decreases |content|
  {
    if content != [] {
      ExecuteAnswers(env, history, content[..|content| - 1], used);
      var before, x := Execute(env, history, content[..|content| - 1], used), Execute(env, history, content, used);
      if content[|content| - 1].ToolUse? {
        assert x.results[..|x.results| - 1] == before.results;
      }
    }
  }

  /** At most one notice is added, and it is the warning exactly when this
      round degrades the turn. */
  lemma NudgesWarn(rs: Rounds, hadSuccess: bool, hadFailure: bool)
    ensures var (after, nudges) := Nudged(rs, hadSuccess, hadFailure);
            && (rs.degraded ==> after.degraded)
            && if after.degraded && !rs.degraded then nudges == [Injected(DegradedWarning)]
               else nudges == [] || nudges == [Injected(ExpectationMixed)] || nudges == [Injected(ExpectationFailed)]
  {
    assert forall n: seq<Block> {:trigger [] + n} :: [] + n == n;
    assert forall n: seq<Block> {:trigger n + []} :: n + [] == n;
  }

  lemma NoticeAdds(results: seq<Block>, notices: seq<Block>)
    requires notices == [] || (|notices| == 1 && notices[0].Injected?)
    ensures ResultIds(results + notices) == ResultIds(results)
    ensures Warnings(results + notices) == Warnings(results) + if notices == [Injected(DegradedWarning)] then 1 else 0
  {
    if notices == [] {
      assert results + notices == results;
    } else {
      assert (results + notices)[..|results + notices| - 1] == results;
    }
  }

  /** A round that goes on appends two messages: the reply, and one that answers
      its tool calls by id and in order. The warning is in it exactly when this
      round degrades the turn. */
  lemma ContinuedRoundAnswers(env: Env, rs: Rounds, history: seq<Message>, r: Response)
    requires GuardKeepsClean(env) && ShortenKeeps(env)
    requires RoundFinished(env, rs, history, r).2.Continue?
    ensures var (rs1, history1, _) := RoundFinished(env, rs, history, r);
            && |history1| == |history| + 2 && history1[..|history|] == history
            && history1[|history|] == Message(Assistant, r.content)
            && history1[|history| + 1].role == User
            && ResultIds(history1[|history| + 1].blocks) == UseIds(r.content)
            && (rs.degraded ==> rs1.degraded)
            && Warnings(history1[|history| + 1].blocks) == if rs1.degraded && !rs.degraded then 1 else 0
  {
    hide ToolLoops.Spoken, ToolLoops.ResultOf, ToolLoops.Nudged, ToolLoops.Execute, ResultIds, UseIds, Warnings;
    var (kept, _) := env.guard(r.content);
    assert kept == r.content;
    var history1 := history + [Message(Assistant, kept)];
    var rs2 := rs.(inputTokens := Add32(rs.inputTokens, GetOr(r.inputTokens, 0)),
                   outputTokens := Add32(rs.outputTokens, GetOr(r.outputTokens, 0)),
                   model := r.model, texts := rs.texts + Spoken(kept), rounds := rs.rounds + 1);
    var x := Execute(env, history1, r.content, rs2.toolsUsed);
    ExecuteAnswers(env, history1, r.content, rs2.toolsUsed);
    var (rs3, nudges) := Nudged(rs2.(toolsUsed := x.used), x.hadSuccess, x.hadFailure);
    NudgesWarn(rs2.(toolsUsed := x.used), x.hadSuccess, x.hadFailure);
    NoticeAdds(x.results, nudges);
    assert RoundFinished(env, rs, history, r).1 == history1 + [Message(User, env.shorten(x.results + nudges))];
  }

  /** The last round appends one message. */
  lemma LastRoundAppends(env: Env, rs: Rounds, history: seq<Message>, r: Response)
    requires RoundFinished(env, rs, history, r).2.TurnOver?
    ensures var (rs1, history1, _) := RoundFinished(env, rs, history, r);
            history1 == history + [Message(Assistant, env.guard(r.content).0)] && rs1.degraded == rs.degraded
  {
    hide ToolLoops.Spoken, ToolLoops.ResultOf, ToolLoops.Execute, ToolLoops.Nudged;
  }

  // ---- The history of a turn ----

  /** The message at `i` is a reply, or the answer by id to the tool calls of
      the reply before it. */
  ghost predicate InPlace(history: seq<Message>, from: nat, i: nat)
    requires from <= i < |history|
  {
    if (i - from) % 2 == 0 then history[i].role == Assistant
    else history[i].role == User && ResultIds(history[i].blocks) == UseIds(history[i - 1].blocks)
  }

  /** From index `from` on, replies and answers alternate. */
  ghost predicate Alternates(history: seq<Message>, from: nat) {
    forall i: nat :: from <= i < |history| ==> InPlace(history, from, i)
  }

  lemma AlternatesAppend(history: seq<Message>, from: nat, m: Message)
    requires from <= |history| && Alternates(history, from) && InPlace(history + [m], from, |history|)
    ensures Alternates(history + [m], from)
  {
    hide ResultIds, UseIds;
    forall i: nat | from <= i < |history|
      ensures InPlace(history + [m], from, i)
    {
      assert InPlace(history, from, i);
    }
  }

  /** Degraded-state warnings given to the model from index `from` on. */
  function WarningsFrom(history: seq<Message>, from: nat): nat
    requires from <= |history|
    decreases |history|
  {
    if from == |history| then 0
    else
      var last := history[|history| - 1];
      WarningsFrom(history[..|history| - 1], from) + if last.role == User then Warnings(last.blocks) else 0
  }

  lemma WarningsAppend(history: seq<Message>, from: nat, m: Message)
    requires from <= |history|
    ensures WarningsFrom(history + [m], from)
         == WarningsFrom(history, from) + if m.role == User then Warnings(m.blocks) else 0
  {
    assert (history + [m])[..|history + [m]| - 1] == history;
  }

  lemma RoundKeepsHistory(env: Env, rs: Rounds, history: seq<Message>, from: nat, r: Response)
    requires GuardKeepsClean(env) && ShortenKeeps(env) && from <= |history|
    requires Alternates(history, from) && (|history| - from) % 2 == 0
    requires WarningsFrom(history, from) == if rs.degraded then 1 else 0
    ensures var (rs1, history1, outcome) := RoundFinished(env, rs, history, r);
            && |history| <= |history1| && history1[..from] == history[..from]
            && Alternates(history1, from)
            && WarningsFrom(history1, from) == (if rs1.degraded then 1 else 0)
            && (outcome.Continue? ==> (|history1| - from) % 2 == 0)
  {
    hide ToolLoops.RoundFinished, ResultIds, UseIds, Warnings, WarningsFrom, Alternates;
    var (rs1, history1, outcome) := RoundFinished(env, rs, history, r);
    if outcome.Continue? {
      ContinuedRoundAnswers(env, rs, history, r);
      assert history1 == history + [history1[|history|]] + [history1[|history| + 1]];
      AppendPair(history, from, history1[|history|], history1[|history| + 1]);
    } else {
      LastRoundAppends(env, rs, history, r);
      AppendReply(history, from, Message(Assistant, env.guard(r.content).0));
    }
  }

  lemma AppendReply(history: seq<Message>, from: nat, reply: Message)
    requires from <= |history| && Alternates(history, from) && (|history| - from) % 2 == 0 && reply.role == Assistant
    ensures Alternates(history + [reply], from)
    ensures WarningsFrom(history + [reply], from) == WarningsFrom(history, from)
  {
    WarningsAppend(history, from, reply);
    AlternatesAppend(history, from, reply);
  }

  lemma AppendPair(history: seq<Message>, from: nat, reply: Message, answer: Message)
    requires from <= |history| && Alternates(history, from) && (|history| - from) % 2 == 0
    requires reply.role == Assistant && answer.role == User && ResultIds(answer.blocks) == UseIds(reply.blocks)
    ensures Alternates(history + [reply] + [answer], from)
    ensures WarningsFrom(history + [reply] + [answer], from) == WarningsFrom(history, from) + Warnings(answer.blocks)
  {
    AppendReply(history, from, reply);
    WarningsAppend(history + [reply], from, answer);
    AlternatesAppend(history + [reply], from, answer);
  }

  /** A whole turn, from any history: what it appends alternates, every tool
      call that was run is answered by id in the next message, and the degraded
      warning is given at most once, exactly when the turn ends up degraded. */
  lemma {:induction false} TurnKeepsHistory(env: Env, rs: Rounds, history: seq<Message>, from: nat, calls: nat)
    requires GuardKeepsClean(env) && ShortenKeeps(env) && rs.rounds <= env.maxRounds && from <= |history|
    requires Alternates(history, from) && (|history| - from) % 2 == 0
    requires WarningsFrom(history, from) == if rs.degraded then 1 else 0
    ensures var turn := Loop(env, rs, history, calls);
            && |history| <= |turn.history| && turn.history[..from] == history[..from]
            && Alternates(turn.history, from)
            && WarningsFrom(turn.history, from) == if turn.rs.degraded then 1 else 0
    decreases env.maxRounds - rs.rounds
  {
    hide ToolLoops.RoundFinished;
    if env.invoke(history).Ok? {
      var r := env.invoke(history).value;
      var (rs1, history1, outcome) := RoundFinished(env, rs, history, r);
      RoundKeepsHistory(env, rs, history, from, r);
      ContinueCounts(env, rs, history, r);
      if outcome.Continue? {
        TurnKeepsHistory(env, rs1, history1, from, calls + 1);
      }
    }
  }

  // ---- What a turn returns ----

  /** The texts spoken by the replies from index `from` on. */
  function SpokenIn(history: seq<Message>, from: nat): seq<string>
    requires from <= |history|
    decreases |history|
  {
    if from == |history| then []
    else
      var last := history[|history| - 1];
      SpokenIn(history[..|history| - 1], from) + if last.role == Assistant then Spoken(last.blocks) else []
  }

  lemma SpokenAppend(history: seq<Message>, from: nat, m: Message)
    requires from <= |history|
    ensures SpokenIn(history + [m], from) ==
            SpokenIn(history, from) + if m.role == Assistant then Spoken(m.blocks) else []
  {
    assert (history + [m])[..|history + [m]| - 1] == history;
  }

  lemma RoundKeepsTexts(env: Env, rs: Rounds, history: seq<Message>, from: nat, r: Response)
    requires from <= |history| && rs.texts == SpokenIn(history, from)
    ensures var (rs1, history1, outcome) := RoundFinished(env, rs, history, r);
            && from <= |history1| && rs1.texts == SpokenIn(history1, from)
            && (outcome.TurnOver? ==> outcome.result.text == Join(rs1.texts) && outcome.result.model == r.model)
  {
    hide ToolLoops.Spoken, ToolLoops.Execute, ToolLoops.Join, SpokenIn;
    var (kept, _) := env.guard(r.content);
    var history1 := history + [Message(Assistant, kept)];
    SpokenAppend(history, from, Message(Assistant, kept));
    var after := RoundFinished(env, rs, history, r).1;
    if after != history1 {
      var answer := after[|history1|];
      assert after == history1 + [answer] && answer.role == User;
      SpokenAppend(history1, from, answer);
      assert SpokenIn(history1, from) + [] == SpokenIn(history1, from);
    }
  }

  /** The text a turn returns is what its replies say in the history it leaves,
      as the guard kept them, blank texts left out. */
  lemma {:induction false} ResultIsTheHistory(env: Env, rs: Rounds, history: seq<Message>, from: nat, calls: nat)
    requires rs.rounds <= env.maxRounds && from <= |history| && rs.texts == SpokenIn(history, from)
    ensures var turn := Loop(env, rs, history, calls);
            && from <= |turn.history|
            && (turn.result.Ok? ==> turn.result.value.text == Join(SpokenIn(turn.history, from)))
    decreases env.maxRounds - rs.rounds
  {
    hide ToolLoops.RoundFinished, ToolLoops.Join, SpokenIn;
    if env.invoke(history).Ok? {
      var r := env.invoke(history).value;
      var (rs1, history1, outcome) := RoundFinished(env, rs, history, r);
      RoundKeepsTexts(env, rs, history, from, r);
      ContinueCounts(env, rs, history, r);
      if outcome.Continue? {
        ResultIsTheHistory(env, rs1, history1, from, calls + 1);
      }
    }
  }
}
