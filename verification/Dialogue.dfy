/** A dialogue between this pulse and a peer (`src/comms.rs`): the state behind
    its lock, and its runs as interleaved steps of the task that speaks, the
    guard that ends it, requests to pause, resume and stop, and watchers. */
module Dialogues {
  import opened Text

  datatype Speaker = Local | Peer

  function Other(who: Speaker): Speaker { if who.Local? then Peer else Local }

  datatype Turn = Turn(who: Speaker, text: string, n: nat)

  datatype Phase = Thinking(who: Speaker) | Paused | Finished | Failed(why: string) | Cancelled
  {
    predicate IsOver() { Finished? || Failed? || Cancelled? }
  }

  datatype Status = Status(turns: nat, phase: Phase, archived: bool)

  datatype Event =
    | StatusEvent(status: Status)
    | TurnEvent(turn: Turn)
    | Done(archived: bool)
    | Error(why: string, archived: bool)

  predicate Terminal(e: Event) { e.Done? || e.Error? }

  const MAX_TURNS_LIMIT := 50

  /** `max_turns.clamp(1, MAX_TURNS_LIMIT)`. */
  function Clamp(requested: nat): nat {
    if requested < 1 then 1 else if requested > MAX_TURNS_LIMIT then MAX_TURNS_LIMIT else requested
  }

  // ---- Under the lock ----

  /** `abort`: the handle to abort the task is still there. */
  datatype Inner = Inner(turns: seq<Turn>, phase: Phase, beforePause: Option<Phase>, archived: bool, abort: bool)

  const NEW_INNER := Inner([], Thinking(Local), None, false, true)

  function StatusOf(d: Inner): Status { Status(|d.turns|, d.phase, d.archived) }

  /** The locked part of `set_phase`, and whether the status is sent after it. */
  function PhaseSet(d: Inner, phase: Phase): (Inner, bool) {
    if d.phase.IsOver() then (d, false)
    else if d.phase.Paused? && phase.Thinking? then (d.(beforePause := Some(phase)), false)
    else (d.(phase := phase), true)
  }

  /** The locked part of `set_paused`, and whether the status is sent after it. */
  function PausedSet(d: Inner, paused: bool): (Inner, bool) {
    if d.phase.IsOver() then (d, false)
    else if paused && d.phase.Thinking? then (d.(beforePause := Some(d.phase), phase := Paused), true)
    else if !paused && d.phase.Paused? then
      (d.(phase := if d.beforePause.Some? then d.beforePause.value else Thinking(Local), beforePause := None), true)
    else (d, false)
  }

  function Pushed(d: Inner, who: Speaker, text: string): Inner {
    d.(turns := d.turns + [Turn(who, text, |d.turns| + 1)])
  }

  /** The locked part of `stop`, and whether it took the handle, to abort the
      task once the lock is released. */
  function Stopped(d: Inner): (Inner, bool) {
    if d.phase.IsOver() then (d, false) else (d.(phase := Cancelled, abort := false), d.abort)
  }

  /** The first lock of the guard's drop. */
  function Cancelling(d: Inner): Inner { (if d.phase.IsOver() then d else d.(phase := Cancelled)).(abort := false) }

  /** The event that ends a dialogue whose last status is `st`. */
  function Ending(st: Status): Event {
    if st.phase.Failed? then Error(st.phase.why, st.archived) else Done(st.archived)
  }

  /** Whether a conversation file is written; `written` is how the write went. */
  function Archived(turns: seq<Turn>, isolated: bool, written: bool): bool { !isolated && turns != [] && written }

  class Dialogue {
    const maxTurns: nat
    var turns: seq<Turn>
    var phase: Phase
    var beforePause: Option<Phase>
    var archived: bool
    var abort: bool
    /** Abort requests sent to the task. */
    var aborts: nat
    /** The watch channel `pause`: whether the loop may go on. */
    var mayGoOn: bool
    /** Everything broadcast so far. */
    var sent: seq<Event>

    function Held(): Inner
      reads this
    {
      Inner(turns, phase, beforePause, archived, abort)
    }

    constructor (requested: nat)
      ensures Held() == NEW_INNER && mayGoOn && aborts == 0 && sent == [] && maxTurns == Clamp(requested)
    {
      maxTurns := Clamp(requested);
      turns, phase, beforePause, archived, abort := [], Thinking(Local), None, false, true;
      mayGoOn, aborts, sent := true, 0, [];
    }

    method SetPhase(to: Phase)
      modifies `phase, `beforePause, `sent
      ensures Held() == PhaseSet(old(Held()), to).0
      ensures sent == old(sent) + if PhaseSet(old(Held()), to).1 then [StatusEvent(StatusOf(Held()))] else []
    {
      if phase.IsOver() {
        return;
      }
      if phase.Paused? && to.Thinking? {
        beforePause := Some(to);
        return;
      }
      phase := to;
      sent := sent + [StatusEvent(StatusOf(Held()))];
    }

    method PushTurn(who: Speaker, text: string) returns (n: nat)
      modifies `turns, `sent
      ensures Held() == Pushed(old(Held()), who, text) && n == |turns|
      ensures sent == old(sent) + [TurnEvent(turns[n - 1])]
    {
      n := |turns| + 1;
      turns := turns + [Turn(who, text, n)];
      sent := sent + [TurnEvent(Turn(who, text, n))];
    }

    method SetPaused(paused: bool)
      modifies `mayGoOn, `phase, `beforePause, `sent
      ensures mayGoOn == !paused && Held() == PausedSet(old(Held()), paused).0
      ensures sent == old(sent) + if PausedSet(old(Held()), paused).1 then [StatusEvent(StatusOf(Held()))] else []
    {
      mayGoOn := !paused;
      if phase.IsOver() {
        return;
      }
      if paused && phase.Thinking? {
        beforePause := Some(phase);
        phase := Paused;
      } else if !paused && phase.Paused? {
        phase := if beforePause.Some? then beforePause.value else Thinking(Local);
        beforePause := None;
      } else {
        return;
      }
      sent := sent + [StatusEvent(StatusOf(Held()))];
    }

    method Stop()
      modifies `phase, `abort, `aborts
      ensures Held() == Stopped(old(Held())).0
      ensures aborts == old(aborts) + if Stopped(old(Held())).1 then 1 else 0
    {
      if phase.IsOver() {
        return;
      }
      phase := Cancelled;
      var taken := abort;
      abort := false;
      if taken {
        aborts := aborts + 1;
      }
    }

    /** The turns so far, whether it is over, and where live events start. */
    method Subscribe() returns (soFar: seq<Turn>, over: bool, live: nat)
      ensures soFar == turns && over == phase.IsOver() && live == |sent|
    {
      return turns, phase.IsOver(), |sent|;
    }

    /** `EndGuard::drop`. */
    method End(isolated: bool, written: bool)
      modifies `phase, `archived, `abort, `sent
      ensures Held() == Cancelling(old(Held())).(archived := Archived(turns, isolated, written))
      ensures sent == old(sent) + [StatusEvent(StatusOf(Held())), Ending(StatusOf(Held()))]
    {
      if !phase.IsOver() {
        phase := Cancelled;
      }
      abort := false;
      archived := !isolated && turns != [] && written;
      var status := StatusOf(Held());
      sent := sent + [StatusEvent(status)];
      sent := sent + [if status.phase.Failed? then Error(status.phase.why, archived) else Done(archived)];
    }
  }

  // ---- Steps ----

  /** Where the task is. `Unpolled`, `Waiting` and `Asking` are its await points. */
  datatype Place =
    | Unpolled
    | Waiting(who: Speaker)
    | Checking(who: Speaker)
    | Announcing(who: Speaker)
    | Asking(who: Speaker)
    | Pushing(who: Speaker, text: string)
    | Telling(turn: Turn)
    | Closing(phase: Phase)
    | Reading(next: Place)
    | Sending(status: Status, next: Place)
    | Guard
    | Archiving
    | LastReading
    | LastSending(status: Status)
    | LastTelling(status: Status)
    | Gone

  predicate Awaiting(p: Place) { p.Unpolled? || p.Waiting? || p.Asking? }

  /** Where a call to `set_paused` is. */
  datatype Pause =
    | Flagging(paused: bool)
    | Locking(paused: bool)
    | PauseReading
    | PauseSending(status: Status)
    | PauseDone

  /** `parked`: the task is at an await that was not ready, and nobody polls it.
      `stopping`: a call to `stop` holds the handle and has not yet aborted the
      task. `aborted`: it has. A parked task with an abort requested is dropped,
      not polled again; one that is being polled goes on until it parks. */
  datatype State = State(
    max: nat,
    inner: Inner,
    mayGoOn: bool,
    sent: seq<Event>,
    task: Place,
    parked: bool,
    stopping: bool,
    aborted: bool,
    pauses: seq<Pause>,
    archive: seq<seq<Turn>>)

  function Initial(requested: nat): State {
    State(Clamp(requested), NEW_INNER, true, [], Unpolled, true, false, false, [], [])
  }

  datatype Step =
    | Resume
    | Park
    | Poll
    | Pass
    | Check(isolated: bool)
    | Announce
    | Answer(reply: Option<string>, why: string)
    | Push
    | Tell
    | Close
    | ReadStatus
    | SendStatus
    | Drop
    | LockGuard
    | Archive(shed: bool, written: bool)
    | ReadLast
    | SendLast
    | TellLast
    | Stop
    | RequestAbort
    | Call(paused: bool)
    | Flag(i: nat)
    | Lock(i: nat)
    | PauseRead(i: nat)
    | PauseSend(i: nat)

  predicate Enabled(s: State, step: Step) {
    match step
    case Resume => Awaiting(s.task) && s.parked && !s.aborted
    case Park => Awaiting(s.task) && !s.parked
    case Poll => s.task.Unpolled? && !s.parked
    case Pass => s.task.Waiting? && !s.parked && s.mayGoOn
    case Check(_) => s.task.Checking?
    case Announce => s.task.Announcing?
    case Answer(_, _) => s.task.Asking? && !s.parked
    case Push => s.task.Pushing?
    case Tell => s.task.Telling?
    case Close => s.task.Closing?
    case ReadStatus => s.task.Reading?
    case SendStatus => s.task.Sending?
    // After an abort, or when the runtime goes down.
    case Drop => Awaiting(s.task) && s.parked
    case LockGuard => s.task.Guard?
    case Archive(_, _) => s.task.Archiving?
    case ReadLast => s.task.LastReading?
    case SendLast => s.task.LastSending?
    case TellLast => s.task.LastTelling?
    case Stop => true
    case RequestAbort => s.stopping
    case Call(_) => true
    case Flag(i) => i < |s.pauses| && s.pauses[i].Flagging?
    case Lock(i) => i < |s.pauses| && s.pauses[i].Locking?
    case PauseRead(i) => i < |s.pauses| && s.pauses[i].PauseReading?
    case PauseSend(i) => i < |s.pauses| && s.pauses[i].PauseSending?
  }

  const SHED := "shed by isolation mode"

  /** After a turn: the other side's, or the end at the cap. */
  function NextPlace(turn: Turn, max: nat): Place {
    if turn.n < max then Waiting(Other(turn.who)) else Closing(Finished)
  }

  /** A change of phase by the task, which then goes on at `next`. */
  function Announced(s: State, phase: Phase, next: Place): State {
    var (inner, tell) := PhaseSet(s.inner, phase);
    s.(inner := inner, task := if tell then Reading(next) else next)
  }

  /** A step of the task or its guard. */
  predicate ByTask(step: Step) {
    !(step.Stop? || step.RequestAbort? || step.Call? || step.Flag? || step.Lock? || step.PauseRead? || step.PauseSend?)
  }

  predicate ByGuard(step: Step) {
    step.LockGuard? || step.Archive? || step.ReadLast? || step.SendLast? || step.TellLast?
  }

  function TaskStep(s: State, step: Step): State
    requires Enabled(s, step) && ByTask(step)
  {
    if ByGuard(step) then GuardStep(s, step) else SpeakStep(s, step)
  }

  function GuardStep(s: State, step: Step): State
    requires Enabled(s, step) && ByGuard(step)
  {
    match step
    case LockGuard => s.(inner := Cancelling(s.inner), task := Archiving)
    case Archive(shed, written) =>
      s.(inner := s.inner.(archived := Archived(s.inner.turns, shed, written)), task := LastReading,
         archive := s.archive + [s.inner.turns])
    case ReadLast => s.(task := LastSending(StatusOf(s.inner)))
    case SendLast => s.(sent := s.sent + [StatusEvent(s.task.status)], task := LastTelling(s.task.status))
    case TellLast => s.(sent := s.sent + [Ending(s.task.status)], task := Gone)
  }

  function SpeakStep(s: State, step: Step): State
    requires Enabled(s, step) && ByTask(step) && !ByGuard(step)
  {
    match step
    case Resume => s.(parked := false)
    case Park => s.(parked := true)
    case Poll => s.(task := Checking(Local))
    case Pass => s.(task := Checking(s.task.who))
    case Check(isolated) => s.(task := if isolated then Closing(Failed(SHED)) else Announcing(s.task.who))
    case Announce => Announced(s, Thinking(s.task.who), Asking(s.task.who))
    case Answer(reply, why) =>
      s.(task := if reply.Some? then Pushing(s.task.who, reply.value) else Closing(Failed(why)))
    case Push =>
      var inner := Pushed(s.inner, s.task.who, s.task.text);
      s.(inner := inner, task := Telling(inner.turns[|s.inner.turns|]))
    case Tell => s.(sent := s.sent + [TurnEvent(s.task.turn)], task := NextPlace(s.task.turn, s.max))
    case Close => Announced(s, s.task.phase, Guard)
    case ReadStatus => s.(task := Sending(StatusOf(s.inner), s.task.next))
    case SendStatus => s.(sent := s.sent + [StatusEvent(s.task.status)], task := s.task.next)
    case Drop => s.(task := Guard, parked := false)
  }

  function RequestStep(s: State, step: Step): State
    requires Enabled(s, step) && !ByTask(step)
  {
    match step
    case Stop => s.(inner := Stopped(s.inner).0, stopping := s.stopping || Stopped(s.inner).1)
    case RequestAbort => s.(stopping := false, aborted := true)
    case Call(paused) => s.(pauses := s.pauses + [Flagging(paused)])
    case Flag(i) => s.(mayGoOn := !s.pauses[i].paused, pauses := s.pauses[i := Locking(s.pauses[i].paused)])
    case Lock(i) =>
      var (inner, tell) := PausedSet(s.inner, s.pauses[i].paused);
      s.(inner := inner, pauses := s.pauses[i := if tell then PauseReading else PauseDone])
    case PauseRead(i) => s.(pauses := s.pauses[i := PauseSending(StatusOf(s.inner))])
    case PauseSend(i) => s.(sent := s.sent + [StatusEvent(s.pauses[i].status)], pauses := s.pauses[i := PauseDone])
  }

  function Apply(s: State, step: Step): State
    requires Enabled(s, step)
  {
    if ByTask(step) then TaskStep(s, step) else RequestStep(s, step)
  }

  function Took(s: State, step: Step): State { if Enabled(s, step) then Apply(s, step) else s }

  /** The state after a run; a step that is not enabled does nothing. */
  function After(s: State, steps: seq<Step>): State
    decreases |steps|
  {
    if steps == [] then s else After(Took(s, steps[0]), steps[1..])
  }

  lemma {:induction false} AfterConcat(s: State, a: seq<Step>, b: seq<Step>)
    ensures After(s, a + b) == After(After(s, a), b)
    decreases |a|
  {
    hide Took;
    if a == [] {
      assert a + b == b;
    } else {
      assert (a + b)[1..] == a[1..] + b;
      AfterConcat(Took(s, a[0]), a[1..], b);
    }
  }

  lemma AfterPush(s: State, steps: seq<Step>, step: Step)
    ensures After(s, steps + [step]) == Took(After(s, steps), step)
  {
    AfterConcat(s, steps, [step]);
  }
}
