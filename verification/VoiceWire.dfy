/** What a voice client hears: the text a turn hands on, over the line to the
    client (`src/tool_loop.rs`, `src/server/handlers/chat.rs`). */
module VoiceWires {
  import opened Text
  import opened TurnEvents
  import opened SpeechGates
  import opened ProgressSinks
  import opened Messages
  import opened ToolLoops
  import opened VoiceTurns
  import Lines = ControlPlanes

  function Events(items: seq<Lines.Item>): seq<TurnEvent> {
    seq(|items|, i requires 0 <= i < |items| => items[i].event)
  }

  /** The text a client has been sent. */
  function HeardOn(line: Lines.Line): string { DeltaText(Events(Lines.SentItems(line.wire))) }

  /** The events handed to the line. */
  function Handed(steps: seq<Lines.Step>): seq<TurnEvent> {
    if steps == [] then []
    else
      var last := steps[|steps| - 1];
      Handed(steps[..|steps| - 1]) + if last.Deliver? then [last.event] else []
  }

  /** An event other than a reset is handed over, and it is a boundary or there
      is room in the channel. */
  predicate Passes(line: Lines.Line, step: Lines.Step) {
    step.Deliver? && !step.event.Reset? && (step.event.Segment? || !Lines.Full(line))
  }

  /** Those, resets aside, that the line accepted. */
  function Through(run: seq<Lines.Line>, steps: seq<Lines.Step>): seq<TurnEvent>
    requires |run| == |steps| + 1
    decreases |steps|
  {
    if steps == [] then []
    else
      var n, last := |steps| - 1, steps[|steps| - 1];
      Through(run[..n + 1], steps[..n]) +
      if Passes(run[n], last) then [last.event] else []
  }

  /** A delta met a full channel. */
  predicate LosesText(run: seq<Lines.Line>, steps: seq<Lines.Step>)
    requires |run| == |steps| + 1
  {
    exists i :: 0 <= i < |steps| && steps[i].Deliver? && steps[i].event.Delta? && steps[i].event.text != ""
                && Lines.Full(run[i])
  }

  /** What a sink whose events this line is handed is told of each: of the n-th
      one, whether the line accepted it. */
  ghost function TakesOf(run: seq<Lines.Line>, steps: seq<Lines.Step>): seq<TurnEvent> -> bool
    requires |run| == |steps| + 1
  {
    (events: seq<TurnEvent>) =>
      exists i :: 0 <= i < |steps| && steps[i].Deliver? && Lines.Delivers(run[i], steps[i].event)
                  && |Handed(steps[..i + 1])| == |events|
  }

  lemma {:induction false} HandedGrows(steps: seq<Lines.Step>, i: nat, j: nat)
    requires i <= j <= |steps|
    ensures |Handed(steps[..i])| <= |Handed(steps[..j])|
    decreases j
  {
    if i < j {
      assert steps[..j][..j - 1] == steps[..j - 1];
      HandedGrows(steps, i, j - 1);
    }
  }

  /** Such answers of the channel exist for every run of the line. */
  lemma TakesAsTheLineDoes(run: seq<Lines.Line>, steps: seq<Lines.Step>, i: nat)
    requires |run| == |steps| + 1 && i < |steps| && steps[i].Deliver?
    ensures TakesOf(run, steps)(Handed(steps[..i + 1])) <==> Lines.Delivers(run[i], steps[i].event)
  {
    hide Lines.Delivers;
    forall j | 0 <= j < |steps| && steps[j].Deliver? && j != i
      ensures |Handed(steps[..j + 1])| != |Handed(steps[..i + 1])|
    {
      var a, b := if i < j then i else j, if i < j then j else i;
      HandedGrows(steps, a + 1, b);
      assert steps[..b + 1][..b] == steps[..b];
    }
  }

  lemma EventsAppend(items: seq<Lines.Item>, more: seq<Lines.Item>)
    ensures Events(items + more) == Events(items) + Events(more)
  {
  }

  lemma Shorter(run: seq<Lines.Line>, steps: seq<Lines.Step>)
    requires Lines.IsRun(run, steps) && steps != []
    ensures Lines.IsRun(run[..|steps|], steps[..|steps| - 1])
    ensures Lines.Next(run[|steps| - 1], steps[|steps| - 1], run[|steps|])
  {
    var before, init := run[..|steps|], steps[..|steps| - 1];
    forall i | 0 <= i < |init| ensures Lines.Next(before[i], init[i], before[i + 1]) {
      assert Lines.Next(run[i], steps[i], run[i + 1]);
    }
  }

  lemma {:induction false} LogIsThrough(run: seq<Lines.Line>, steps: seq<Lines.Step>)
    requires Lines.IsRun(run, steps)
    ensures Events(run[|steps|].log) == Through(run, steps)
    decreases |steps|
  {
    if steps != [] {
      var n := |steps| - 1;
      Shorter(run, steps);
      LogIsThrough(run[..n + 1], steps[..n]);
      StepLogs(run[n], steps[n], run[n + 1]);
    }
  }

  lemma StepLogs(s: Lines.Line, step: Lines.Step, t: Lines.Line)
    requires Lines.Next(s, step, t)
    ensures Events(t.log) == Events(s.log) + if Passes(s, step) then [step.event] else []
  {
    hide Lines.DueCount;
    if step.Deliver? { EventsAppend(s.log, [Lines.Item(step.event, |s.resetLog|)]); }
  }

  lemma {:induction false} TextGrows(a: seq<TurnEvent>, b: seq<TurnEvent>)
    ensures DeltaText(a) <= DeltaText(a + b)
    decreases |b|
  {
    if b == [] {
      assert a + b == a;
    } else {
      TextGrows(a, b[..|b| - 1]);
      assert (a + b)[..|a + b| - 1] == a + b[..|b| - 1];
    }
  }

  function TextIn(event: TurnEvent): string { if event.Delta? then event.text else "" }

  lemma TextStep(handed: string, through: string, more: string, passes: bool)
    requires |through| <= |handed|
    ensures var t := if passes then through + more else through;
            |t| <= |handed + more| && (t == handed + more <==> through == handed && (more == "" || passes))
  {
    if passes && through + more == handed + more {
      assert through == (through + more)[..|through|] && handed == (handed + more)[..|handed|];
    }
    assert handed + "" == handed;
  }

  lemma HandedStep(steps: seq<Lines.Step>)
    requires steps != []
    ensures var init, last := steps[..|steps| - 1], steps[|steps| - 1];
            DeltaText(Handed(steps)) == DeltaText(Handed(init)) + if last.Deliver? then TextIn(last.event) else ""
  {
    hide DeltaText;
    var init, last := steps[..|steps| - 1], steps[|steps| - 1];
    if last.Deliver? { DeliverOne(Handed(init), last.event); }
    assert Handed(init) + [] == Handed(init) && DeltaText(Handed(init)) + "" == DeltaText(Handed(init));
  }

  lemma PassesIff(line: Lines.Line, step: Lines.Step)
    ensures Passes(line, step) <==> step.Deliver? && !step.event.Reset? && Lines.Delivers(line, step.event)
  {
  }

  lemma ThroughStep(run: seq<Lines.Line>, steps: seq<Lines.Step>)
    requires |run| == |steps| + 1 && steps != []
    ensures var n, last := |steps| - 1, steps[|steps| - 1];
            var before := DeltaText(Through(run[..n + 1], steps[..n]));
            DeltaText(Through(run, steps)) ==
            if last.Deliver? && Lines.Delivers(run[n], last.event) then before + TextIn(last.event) else before
  {
    hide DeltaText, Lines.Delivers, Passes, Through;
    var n, last := |steps| - 1, steps[|steps| - 1];
    var before := Through(run[..n + 1], steps[..n]);
    PassesIff(run[n], last);
    ThroughUnfolds(run, steps);
    if Passes(run[n], last) { DeliverOne(before, last.event); }
    assert DeltaText(before) + "" == DeltaText(before);
  }

  lemma ThroughUnfolds(run: seq<Lines.Line>, steps: seq<Lines.Step>)
    requires |run| == |steps| + 1 && steps != []
    ensures var n, last := |steps| - 1, steps[|steps| - 1];
            var before := Through(run[..n + 1], steps[..n]);
            && (Passes(run[n], last) ==> last.Deliver? && Through(run, steps) == before + [last.event])
            && (!Passes(run[n], last) ==> Through(run, steps) == before)
  {
    hide Lines.Delivers;
    var n := |steps| - 1;
    assert Through(run[..n + 1], steps[..n]) + [] == Through(run[..n + 1], steps[..n]);
  }

  /** What went through is what was handed on, but for what was lost. */
  lemma {:induction false} ThroughIsAllIff(run: seq<Lines.Line>, steps: seq<Lines.Step>)
    requires |run| == |steps| + 1
    ensures |DeltaText(Through(run, steps))| <= |DeltaText(Handed(steps))|
    ensures DeltaText(Through(run, steps)) == DeltaText(Handed(steps)) <==> !LosesText(run, steps)
    decreases |steps|
  {
    if steps != [] {
      hide DeltaText, LosesText, Handed, Through, Lines.Delivers;
      var n, last := |steps| - 1, steps[|steps| - 1];
      ThroughIsAllIff(run[..n + 1], steps[..n]);
      LosesMore(run, steps);
      HandedStep(steps);
      ThroughStep(run, steps);
      TextStep(DeltaText(Handed(steps[..n])), DeltaText(Through(run[..n + 1], steps[..n])),
               if last.Deliver? then TextIn(last.event) else "", last.Deliver? && Lines.Delivers(run[n], last.event));
    }
  }

  lemma LosesMore(run: seq<Lines.Line>, steps: seq<Lines.Step>)
    requires |run| == |steps| + 1 && steps != []
    ensures var n, last := |steps| - 1, steps[|steps| - 1];
            LosesText(run, steps) <==>
            || LosesText(run[..n + 1], steps[..n])
            || (last.Deliver? && last.event.Delta? && last.event.text != "" && Lines.Full(run[n]))
  {
  }

  /** In every interleaving: the text on the wire is a beginning of what went
      through, and once the reader has ended it is all of that, which is all
      that was handed on if and only if no delta met a full channel. */
  lemma AllIsHeardIffNothingIsLost(run: seq<Lines.Line>, steps: seq<Lines.Step>)
    requires Lines.IsRun(run, steps)
    ensures var line := run[|steps|];
            && HeardOn(line) <= DeltaText(Through(run, steps))
            && (line.reader.Ended? ==>
                  && HeardOn(line) == DeltaText(Through(run, steps))
                  && (HeardOn(line) == DeltaText(Handed(steps)) <==> !LosesText(run, steps)))
  {
    hide Lines.IsRun, LosesText, Lines.SentItems, DeltaText, Through, Handed;
    LengthOfRun(run, steps);
    var line := run[|steps|];
    Lines.WireKeepsOrder(run, steps, |steps|);
    if line.reader.Ended? { Lines.NothingIsLost(run, steps, |steps|); }
    LogIsThrough(run, steps);
    ThroughIsAllIff(run, steps);
    var items := Lines.SentItems(line.wire);
    EventsAppend(items, line.log[|items|..]);
    assert items + line.log[|items|..] == line.log;
    TextGrows(Events(items), Events(line.log[|items|..]));
  }

  function ResetEvents(events: seq<TurnEvent>): seq<TurnEvent> {
    if events == [] then []
    else ResetEvents(events[..|events| - 1]) + if events[|events| - 1].Reset? then [events[|events| - 1]] else []
  }

  /** In every interleaving, however full the channel: once the reader has ended
      every boundary and every reset handed on is on the wire, in order. */
  lemma BoundariesAndResetsArrive(run: seq<Lines.Line>, steps: seq<Lines.Step>)
    requires Lines.IsRun(run, steps) && run[|steps|].reader.Ended?
    ensures SegmentsOf(Events(Lines.SentItems(run[|steps|].wire))) == SegmentsOf(Handed(steps))
    ensures Lines.VoidEvents(run[|steps|].wire) == ResetEvents(Handed(steps))
  {
    hide Lines.IsRun, Lines.SentItems, Lines.VoidEvents;
    LengthOfRun(run, steps);
    Lines.NothingIsLost(run, steps, |steps|);
    LogIsThrough(run, steps);
    BoundariesPass(run, steps);
    ResetsAreLogged(run, steps);
  }

  lemma {:induction false} BoundariesPass(run: seq<Lines.Line>, steps: seq<Lines.Step>)
    requires |run| == |steps| + 1
    ensures SegmentsOf(Through(run, steps)) == SegmentsOf(Handed(steps))
    decreases |steps|
  {
    if steps != [] {
      hide SegmentsOf, Lines.Full;
      var n, last := |steps| - 1, steps[|steps| - 1];
      var before := Through(run[..n + 1], steps[..n]);
      BoundariesPass(run[..n + 1], steps[..n]);
      assert before + [] == before && Handed(steps[..n]) + [] == Handed(steps[..n]);
      if last.Deliver? {
        DeliverOne(Handed(steps[..n]), last.event);
        DeliverOne(before, last.event);
      }
    }
  }

  lemma {:induction false} ResetsAreLogged(run: seq<Lines.Line>, steps: seq<Lines.Step>)
    requires Lines.IsRun(run, steps)
    ensures run[|steps|].resetLog == ResetEvents(Handed(steps))
    decreases |steps|
  {
    if steps != [] {
      var n := |steps| - 1;
      Shorter(run, steps);
      ResetsAreLogged(run[..n + 1], steps[..n]);
      StepLogsResets(run[n], steps[n], run[n + 1]);
      HandedResets(steps);
    }
  }

  lemma HandedResets(steps: seq<Lines.Step>)
    requires steps != []
    ensures var n, last := |steps| - 1, steps[|steps| - 1];
            ResetEvents(Handed(steps)) ==
            ResetEvents(Handed(steps[..n])) + if last.Deliver? && last.event.Reset? then [last.event] else []
  {
    hide Resets;
    var handed, last := Handed(steps[..|steps| - 1]), steps[|steps| - 1];
    assert handed + [] == handed && ResetEvents(handed) + [] == ResetEvents(handed);
    if last.Deliver? { ResetAfter(handed, last.event); }
  }

  lemma ResetAfter(events: seq<TurnEvent>, event: TurnEvent)
    ensures ResetEvents(events + [event]) == ResetEvents(events) + if event.Reset? then [event] else []
  {
    assert (events + [event])[..|events|] == events;
  }

  lemma StepLogsResets(s: Lines.Line, step: Lines.Step, t: Lines.Line)
    requires Lines.Next(s, step, t)
    ensures t.resetLog == s.resetLog + if step.Deliver? && step.event.Reset? then [step.event] else []
  {
    hide Lines.DueCount;
  }

  lemma LengthOfRun(run: seq<Lines.Line>, steps: seq<Lines.Step>)
    requires Lines.IsRun(run, steps)
    ensures |run| == |steps| + 1
  {
  }

  /** A voice turn over a line that loses no text, at any point while it runs and
      in every interleaving with the reader: the client has heard a beginning of
      the replies as the guard kept them - or, of a turn that fails, would keep
      them - and at the end all of them, unless the last was cut or the hold
      overflowed. */
  lemma VoiceClientHears(wide: char -> bool, env: Env, history: seq<Message>, cap: nat, takes: seq<TurnEvent> -> bool,
                         run: seq<Lines.Line>, steps: seq<Lines.Step>)
    requires GuardKeeps(wide, env) && StreamsMatch(env)
    requires Lines.IsRun(run, steps) && !LosesText(run, steps)
    requires var (_, end) := StreamLoop(env, NO_ROUNDS, history, Speaker(Holding(cap, takes), 0, false), 0);
             DeltaText(Handed(steps)) <= DeltaText(end.sink.out)
    ensures var (turn, end) := StreamLoop(env, NO_ROUNDS, history, Speaker(Holding(cap, takes), 0, false), 0);
            && |history| <= |turn.history| && end.sink.held.Some?
            && var line, said := run[|steps|], Said(turn.history, |history|);
            match turn.result
            case Ok(result) =>
              && HeardOn(line) <= said
              && (!result.wasTruncated && !end.sink.held.value.overflowed ==>
                    line.reader.Ended? && DeltaText(Handed(steps)) == DeltaText(end.sink.out) ==> HeardOn(line) == said)
            case Err(_) => HeardSafely(env, HeardOn(line), said, TalkOf(env.stream(turn.history)).first)
  {
    hide StreamLoop, TalkOf, GuardKeeps, StreamsMatch, Lines.IsRun, LosesText, DeltaText, HeardSafely, HeardOn,
         Handed, Said;
    LengthOfRun(run, steps);
    var (turn, end) := StreamLoop(env, NO_ROUNDS, history, Speaker(Holding(cap, takes), 0, false), 0);
    VoiceNeverHearsACut(wide, env, history, cap, takes);
    HeardIsHanded(run, steps, DeltaText(end.sink.out));
    PrefixCarries(env, HeardOn(run[|steps|]), DeltaText(end.sink.out), Said(turn.history, |history|),
                  TalkOf(env.stream(turn.history)).first);
  }

  lemma PrefixCarries(env: Env, a: string, b: string, said: string, first: string)
    requires a <= b
    ensures b <= said ==> a <= said
    ensures HeardSafely(env, b, said, first) ==> HeardSafely(env, a, said, first)
  {
    hide FirstText, TextOf;
    if HeardSafely(env, b, said, first) { PrefixIsSafe(env, a, b, said, first); }
  }

  lemma PrefixIsSafe(env: Env, a: string, b: string, said: string, first: string)
    requires a <= b && HeardSafely(env, b, said, first)
    ensures HeardSafely(env, a, said, first)
  {
    hide FirstText, TextOf;
  }

  lemma PrefixOfPrefix(a: string, b: string, c: string)
    requires a <= b <= c
    ensures a <= c
  {
  }

  lemma HeardIsHanded(run: seq<Lines.Line>, steps: seq<Lines.Step>, out: string)
    requires Lines.IsRun(run, steps) && |run| == |steps| + 1 && !LosesText(run, steps)
             && DeltaText(Handed(steps)) <= out
    ensures HeardOn(run[|steps|]) <= out
    ensures run[|steps|].reader.Ended? ==> HeardOn(run[|steps|]) == DeltaText(Handed(steps))
  {
    hide Lines.IsRun, LosesText, DeltaText, HeardOn, Handed, Through;
    AllIsHeardIffNothingIsLost(run, steps);
    ThroughIsAllIff(run, steps);
    PrefixOfPrefix(HeardOn(run[|steps|]), DeltaText(Handed(steps)), out);
  }
}
