/** Deciding whether a pidfile still names the process that wrote it
    (`src/pidfile.rs`), while processes exit and pids are reused between the
    system calls, and what `down` and `status` do with the answer
    (`src/cli/down.rs`, `src/cli/status.rs`). */
module Pidfiles {
  import opened Text
  import opened Decimals

  // ---- The operating system ----

  /** A process that was ever started: the boot it ran in, its pid in each pid
      namespace that sees it, and its start time. */
  datatype Process = Process(boot: string, pids: map<nat, nat>, start: nat)

  /** Processes in order of creation; `holding` are those that still hold their
      pids, `exited` those that have exited, some of which may not have been
      reaped and so still hold theirs, `uids` their real uids. */
  datatype World = World(boot: string, procs: seq<Process>, holding: set<nat>, exited: set<nat>, uids: seq<nat>)

  predicate Running(w: World, i: nat) { i in w.holding && i !in w.exited }

  predicate Named(p: Process, ns: nat, pid: nat) { ns in p.pids && p.pids[ns] == pid }

  /** Process `i` holds `pid` in namespace `ns`. */
  predicate Holds(w: World, i: nat, ns: nat, pid: nat) { i in w.holding && i < |w.procs| && Named(w.procs[i], ns, pid) }

  ghost predicate Free(w: World, ns: nat, pid: nat) { forall i: nat :: !Holds(w, i, ns, pid) }

  /** What the kernel guarantees: a pid has one holder, and a later process with
      the same pid has a later start time. */
  ghost predicate Sound(w: World) {
    && |w.uids| == |w.procs|
    && (forall i :: i in w.holding ==> i < |w.procs| && w.procs[i].boot == w.boot)
    && (forall i :: i in w.exited ==> i < |w.procs|)
    && (forall i, j, ns: nat, pid: nat :: Holds(w, i, ns, pid) && Holds(w, j, ns, pid) ==> i == j)
    && (forall i, j, ns: nat :: 0 <= i < j < |w.procs| && Reuses(w.procs[i], w.procs[j], ns) ==>
          w.procs[i].start < w.procs[j].start)
  }

  predicate Reuses(p: Process, q: Process, ns: nat) {
    p.boot == q.boot && ns in p.pids && ns in q.pids && p.pids[ns] == q.pids[ns]
  }

  datatype Change = Nothing | Exit(i: nat) | Reap(i: nat) | Spawn(p: Process, uid: nat) | SetUid(i: nat, uid: nat)

  ghost predicate Step(w: World, c: Change, v: World) {
    match c
    case Nothing => v == w
    case Exit(i) => Running(w, i) && v == w.(exited := w.exited + {i})
    case Reap(i) => i in w.holding && i in w.exited && v == w.(holding := w.holding - {i})
    case SetUid(i, uid) => Running(w, i) && i < |w.uids| && v == w.(uids := w.uids[i := uid])
    case Spawn(p, uid) =>
      && p.boot == w.boot
      && (forall ns :: ns in p.pids ==> Free(w, ns, p.pids[ns]))
      && (forall i, ns: nat :: 0 <= i < |w.procs| && Reuses(w.procs[i], p, ns) ==> w.procs[i].start < p.start)
      && v == World(w.boot, w.procs + [p], w.holding + {|w.procs|}, w.exited, w.uids + [uid])
  }

  ghost predicate Follows(w: World, v: World) { exists c :: Step(w, c, v) }

  /** Some run of the machine within one boot. */
  ghost predicate History(h: seq<World>) {
    h != [] && Sound(h[0]) && forall k :: 0 <= k < |h| - 1 ==> Follows(h[k], h[k + 1])
  }

  lemma StepKeeps(w: World, c: Change, v: World)
    requires Sound(w) && Step(w, c, v)
    ensures Sound(v) && v.boot == w.boot && w.procs <= v.procs
    ensures w.exited <= v.exited && forall i :: i in v.holding && i < |w.procs| ==> i in w.holding
  {
    if c.Spawn? {
      var n := |w.procs|;
      assert n !in w.holding;
      forall i, j, ns: nat, pid: nat | Holds(v, i, ns, pid) && Holds(v, j, ns, pid)
        ensures i == j
      {
        assert i != n ==> Holds(w, i, ns, pid);
        assert j != n ==> Holds(w, j, ns, pid);
        assert i == n || j == n ==> Free(w, ns, pid);
      }
    } else if !c.Nothing? {
      forall i, j, ns: nat, pid: nat | Holds(v, i, ns, pid) && Holds(v, j, ns, pid)
        ensures i == j
      {
        assert Holds(w, i, ns, pid) && Holds(w, j, ns, pid);
      }
    }
  }

  /** Processes are never forgotten, and a process that is gone stays gone. */
  lemma {:induction false} HistoryKeeps(h: seq<World>, s: nat, t: nat)
    requires History(h) && s <= t < |h|
    ensures Sound(h[s]) && Sound(h[t]) && h[s].boot == h[t].boot && h[s].procs <= h[t].procs
    ensures h[s].exited <= h[t].exited && forall i :: i in h[t].holding && i < |h[s].procs| ==> i in h[s].holding
    decreases t
  {
    hide Sound, Step;
    if t > 0 {
      HistoryKeeps(h, if s < t then s else t - 1, t - 1);
      var c :| Step(h[t - 1], c, h[t]);
      StepKeeps(h[t - 1], c, h[t]);
    }
  }

  // ---- The record and the check ----

  datatype PidRecord = PidRecord(
    v: nat, pid: nat, start: nat, pidns: nat, bootId: string, uid: nat, unit: Option<string>)

  datatype Recorded = Record(record: PidRecord) | LegacyPid(pid: nat)

  /** `NotThere` is an error for which `is_gone` holds. */
  datatype Failure = NotThere | Other(why: string)

  datatype Answer<T> = Got(value: T) | Failed(failure: Failure)

  /** The answers to the calls that `verify` makes. A pidfd is the process it pins. */
  datatype Answers = Answers(
    boot: Answer<string>, ns: Answer<nat>, fd: Answer<nat>, start: Answer<nat>, uid: Answer<nat>)

  datatype Verdict = Ours(fd: nat) | Gone | Mismatch(what: string) | Legacy(pid: nat) | Unverifiable(why: string)

  const I32_MAX := 0x7fff_ffff

  function Why(f: Failure): string { if f.NotThere? then "not found" else f.why }

  /** `confirm`: `None` when the value is the wanted one. */
  function Confirm(got: Answer<nat>, want: nat, what: string): Option<Verdict> {
    match got
    case Got(value) => if value == want then None else Some(Mismatch(what))
    case Failed(failure) => Some(if failure.NotThere? then Gone else Unverifiable(Why(failure)))
  }

  /** `verify`. */
  function Verify(rec: PidRecord, sys: Answers): Verdict {
    if rec.v != 1 then Unverifiable("pidfile version")
    else if rec.pid <= 1 || rec.pid > I32_MAX then Mismatch("pid")
    else if sys.boot.Failed? then Unverifiable(Why(sys.boot.failure))
    else if sys.boot.value != rec.bootId then Gone
    else if sys.ns.Failed? then Unverifiable(Why(sys.ns.failure))
    else if sys.ns.value != rec.pidns then Mismatch("pid namespace")
    else if sys.fd.Failed? then
      if sys.fd.failure.NotThere? then Gone else Unverifiable(Why(sys.fd.failure))
    else
      var started := Confirm(sys.start, rec.start, "start time");
      var owned := Confirm(sys.uid, rec.uid, "uid");
      if started.Some? then started.value else if owned.Some? then owned.value else Ours(sys.fd.value)
  }

  function Judge(recorded: Recorded, sys: Answers): Verdict {
    match recorded
    case LegacyPid(pid) => Legacy(pid)
    case Record(rec) => Verify(rec, sys)
  }

  // ---- The calls, in the middle of a history ----

  /** `pidfd_open` in `w`. */
  ghost predicate Opens(w: World, ns: nat, pid: nat, a: Answer<nat>) {
    match a
    case Got(i) => Holds(w, i, ns, pid)
    case Failed(NotThere) => Free(w, ns, pid)
    case Failed(Other(_)) => true
  }

  /** A `/proc/<pid>` file opened in `w` and read in `v`. A process in `hidden`
      has no directory there that the caller can see. */
  ghost predicate Reads(w: World, v: World, hidden: set<nat>, ns: nat, pid: nat, value: nat -> nat, a: Answer<nat>) {
    match a
    case Got(x) => exists i :: Holds(w, i, ns, pid) && i in v.holding && i !in hidden && value(i) == x
    case Failed(NotThere) => Free(w, ns, pid) || exists i :: Holds(w, i, ns, pid) && (i !in v.holding || i in hidden)
    case Failed(Other(_)) => true
  }

  function StartIn(w: World): nat -> nat { (i: nat) => if i < |w.procs| then w.procs[i].start else 0 }

  function UidIn(w: World): nat -> nat { (i: nat) => if i < |w.uids| then w.uids[i] else 0 }

  /** When each call takes effect, as positions in a history. */
  datatype Times = Times(fd: nat, startOpen: nat, startRead: nat, uidOpen: nat, uidRead: nat)

  /** The order of the calls in `verify`. */
  predicate PidfdFirst(at: Times) { at.fd <= at.startOpen <= at.startRead <= at.uidOpen <= at.uidRead }

  /** `sys` are answers this history can give a caller in namespace `ns`. */
  ghost predicate Observed(h: seq<World>, hidden: set<nat>, ns: nat, pid: nat, at: Times, sys: Answers) {
    && at.fd < |h| && at.startOpen <= at.startRead < |h| && at.uidOpen <= at.uidRead < |h|
    && (sys.boot.Got? ==> sys.boot.value == h[0].boot)
    && (sys.ns.Got? ==> sys.ns.value == ns)
    && Opens(h[at.fd], ns, pid, sys.fd)
    && Reads(h[at.startOpen], h[at.startRead], hidden, ns, pid, StartIn(h[at.startRead]), sys.start)
    && Reads(h[at.uidOpen], h[at.uidRead], hidden, ns, pid, UidIn(h[at.uidRead]), sys.uid)
  }

  /** Process `r` wrote `rec`, in this boot or an earlier one, before the history. */
  ghost predicate Wrote(w: World, r: nat, rec: PidRecord) {
    && r < |w.procs| && w.procs[r].boot == rec.bootId && w.procs[r].start == rec.start
    && Named(w.procs[r], rec.pidns, rec.pid)
  }

  // ---- Whom a pidfd names ----

  /** Same boot, pid and start time: the same process. */
  lemma SameStart(w: World, i: nat, r: nat, rec: PidRecord)
    requires Sound(w) && Wrote(w, r, rec) && w.boot == rec.bootId
    requires Holds(w, i, rec.pidns, rec.pid) && w.procs[i].start == rec.start
    ensures i == r
  {
    assert Reuses(w.procs[i], w.procs[r], rec.pidns) && Reuses(w.procs[r], w.procs[i], rec.pidns);
  }

  lemma WroteStays(h: seq<World>, t: nat, r: nat, rec: PidRecord)
    requires History(h) && t < |h| && Wrote(h[0], r, rec)
    ensures Wrote(h[t], r, rec)
  {
    HistoryKeeps(h, 0, t);
  }

  /** A process that holds its pid now held it at every earlier moment. */
  lemma AliveHeld(h: seq<World>, s: nat, t: nat, r: nat, rec: PidRecord)
    requires History(h) && s <= t < |h| && Wrote(h[0], r, rec) && r in h[t].holding
    ensures Holds(h[s], r, rec.pidns, rec.pid)
  {
    hide Sound, Step;
    WroteStays(h, s, r, rec);
    HistoryKeeps(h, s, t);
  }

  /** The start time was read of the recorded process, which then held its pid. */
  lemma StartNames(h: seq<World>, hidden: set<nat>, ns: nat, r: nat, rec: PidRecord, at: Times, sys: Answers)
    requires History(h) && Wrote(h[0], r, rec) && Observed(h, hidden, ns, rec.pid, at, sys)
    requires h[0].boot == rec.bootId && ns == rec.pidns && sys.start == Got(rec.start)
    ensures r in h[at.startRead].holding && Holds(h[at.startOpen], r, ns, rec.pid)
  {
    hide Step, Opens;
    HistoryKeeps(h, 0, at.startOpen);
    HistoryKeeps(h, at.startOpen, at.startRead);
    WroteStays(h, at.startOpen, r, rec);
    var i :| Holds(h[at.startOpen], i, ns, rec.pid) && i in h[at.startRead].holding && i !in hidden
             && StartIn(h[at.startRead])(i) == rec.start;
    SameStart(h[at.startOpen], i, r, rec);
  }

  /** In every interleaving of exits, spawns and uid changes with the calls, a
      pidfd that `verify` calls ours names the process that wrote the record. */
  lemma OursIsTheRecorded(h: seq<World>, hidden: set<nat>, ns: nat, r: nat, rec: PidRecord, at: Times, sys: Answers)
    requires History(h) && Wrote(h[0], r, rec) && Observed(h, hidden, ns, rec.pid, at, sys) && PidfdFirst(at)
    requires Verify(rec, sys).Ours?
    ensures Verify(rec, sys).fd == r && r in h[at.startRead].holding
  {
    hide Sound, Step, Wrote;
    StartNames(h, hidden, ns, r, rec, at, sys);
    AliveHeld(h, at.fd, at.startRead, r, rec);
    HistoryKeeps(h, at.fd, at.fd);
    OneHolder(h[at.fd], ns, rec.pid, sys.fd.value, r);
  }

  lemma OneHolder(w: World, ns: nat, pid: nat, i: nat, j: nat)
    requires Sound(w) && Holds(w, i, ns, pid) && Holds(w, j, ns, pid)
    ensures i == j
  {
  }

  /** Whom a signal through a pidfd reaches. */
  function Reached(w: World, fd: nat): Option<nat> { if Running(w, fd) then Some(fd) else None }

  /** `terminate` reaches the recorded process or none, however late it comes. */
  lemma TerminateReachesItOrNone(
      h: seq<World>, hidden: set<nat>, ns: nat, r: nat, rec: PidRecord, at: Times, sys: Answers, later: nat)
    requires History(h) && Wrote(h[0], r, rec) && Observed(h, hidden, ns, rec.pid, at, sys) && PidfdFirst(at)
    requires Verify(rec, sys).Ours? && at.uidRead <= later < |h|
    ensures Reached(h[later], Verify(rec, sys).fd) == if Running(h[later], r) then Some(r) else None
  {
    OursIsTheRecorded(h, hidden, ns, r, rec, at, sys);
  }

  const ELDER := Process("boot", map[7 := 42], 100)
  const YOUNG := Process("boot", map[7 := 42], 200)

  /** A process exits, is reaped, and its pid is given to another. */
  lemma PidIsReused() returns (h: seq<World>)
    ensures |h| == 4 && History(h)
    ensures h[0] == World("boot", [ELDER], {0}, {}, [1000])
    ensures h[3] == World("boot", [ELDER, YOUNG], {1}, {0}, [1000, 1000])
  {
    var w0 := World("boot", [ELDER], {0}, {}, [1000]);
    var w1 := w0.(exited := w0.exited + {0});
    var w2 := w1.(holding := w1.holding - {0});
    var w3 := World("boot", [ELDER] + [YOUNG], w2.holding + {1}, w2.exited, [1000] + [1000]);
    h := [w0, w1, w2, w3];
    assert Step(w0, Exit(0), w1) && Step(w1, Reap(0), w2) && Step(w2, Spawn(YOUNG, 1000), w3);
    assert Follows(h[0], h[1]) && Follows(h[1], h[2]) && Follows(h[2], h[3]);
  }

  /** The order matters: with the start time read before the pidfd is opened,
      a reused pid is taken for the recorded process. */
  lemma StartFirstHitsAnother()
    returns (h: seq<World>, r: nat, rec: PidRecord, at: Times, sys: Answers)
    ensures History(h) && Wrote(h[0], r, rec) && Observed(h, {}, rec.pidns, rec.pid, at, sys)
    ensures at.startRead < at.fd <= at.uidOpen && !PidfdFirst(at)
    ensures Verify(rec, sys).Ours? && Verify(rec, sys).fd != r && Reached(h[|h| - 1], Verify(rec, sys).fd).Some?
  {
    hide Step, Sound, History;
    h := PidIsReused();
    r, rec, at := 0, PidRecord(1, 42, 100, 7, "boot", 1000, None), Times(3, 0, 0, 3, 3);
    sys := Answers(Got("boot"), Got(7), Got(1), Got(100), Got(1000));
    assert Holds(h[0], 0, 7, 42) && Holds(h[3], 1, 7, 42);
  }

  // ---- Verdicts against the recorded process ----

  lemma ReadOfHolder(w: World, v: World, hidden: set<nat>, ns: nat, pid: nat, value: nat -> nat, a: Answer<nat>, r: nat)
    requires Sound(w) && Reads(w, v, hidden, ns, pid, value, a) && Holds(w, r, ns, pid) && r in v.holding
    ensures a.Got? ==> a.value == value(r) && r !in hidden
    ensures a == Failed(NotThere) ==> r in hidden
  {
    forall i: nat | Holds(w, i, ns, pid) ensures i == r { OneHolder(w, ns, pid, i, r); }
  }

  lemma BootOfAlive(h: seq<World>, t: nat, r: nat, rec: PidRecord)
    requires History(h) && t < |h| && Wrote(h[0], r, rec) && r in h[t].holding
    ensures h[0].boot == rec.bootId
  {
    HistoryKeeps(h, 0, t);
  }

  /** The answers about a process that runs throughout. */
  lemma AnswersAboutTheLiving(h: seq<World>, hidden: set<nat>, r: nat, rec: PidRecord, at: Times, sys: Answers)
    requires History(h) && Wrote(h[0], r, rec) && Observed(h, hidden, rec.pidns, rec.pid, at, sys) && PidfdFirst(at)
    requires r in h[at.uidRead].holding
    ensures sys.fd != Failed(NotThere) && (sys.fd.Got? ==> sys.fd.value == r)
    ensures sys.start.Got? ==> sys.start.value == rec.start && r !in hidden
    ensures sys.uid.Got? ==> sys.uid.value == UidIn(h[at.uidRead])(r) && r !in hidden
    ensures sys.start == Failed(NotThere) || sys.uid == Failed(NotThere) ==> r in hidden
  {
    hide Sound, Step, Wrote, Reads;
    AliveHeld(h, at.fd, at.uidRead, r, rec);
    AliveHeld(h, at.startOpen, at.uidRead, r, rec);
    AliveHeld(h, at.startRead, at.uidRead, r, rec);
    AliveHeld(h, at.uidOpen, at.uidRead, r, rec);
    HistoryKeeps(h, at.fd, at.startOpen);
    HistoryKeeps(h, at.uidOpen, at.uidRead);
    if sys.fd.Got? { OneHolder(h[at.fd], rec.pidns, rec.pid, sys.fd.value, r); }
    ReadOfHolder(h[at.startOpen], h[at.startRead], hidden, rec.pidns, rec.pid, StartIn(h[at.startRead]), sys.start, r);
    ReadOfHolder(h[at.uidOpen], h[at.uidRead], hidden, rec.pidns, rec.pid, UidIn(h[at.uidRead]), sys.uid, r);
    StartOfWriter(h, at.startRead, r, rec);
  }

  lemma StartOfWriter(h: seq<World>, t: nat, r: nat, rec: PidRecord)
    requires History(h) && t < |h| && Wrote(h[0], r, rec)
    ensures StartIn(h[t])(r) == rec.start
  {
    WroteStays(h, t, r, rec);
  }

  /** `Gone`, or a start time that does not match, is said only of a recorded
      process that no longer holds its pid, or that `/proc` hides from the caller. */
  lemma GoneIsGone(h: seq<World>, hidden: set<nat>, ns: nat, r: nat, rec: PidRecord, at: Times, sys: Answers)
    requires History(h) && Wrote(h[0], r, rec) && Observed(h, hidden, ns, rec.pid, at, sys) && PidfdFirst(at)
    requires Verify(rec, sys) == Gone || Verify(rec, sys) == Mismatch("start time")
    ensures r !in h[at.uidRead].holding || (r in hidden && Verify(rec, sys) == Gone)
  {
    hide History, Wrote, Opens, Reads;
    if r in h[at.uidRead].holding {
      BootOfAlive(h, at.uidRead, r, rec);
      if ns == rec.pidns { AnswersAboutTheLiving(h, hidden, r, rec, at, sys); }
    }
  }

  /** No call fails but because there is nothing there. */
  predicate NoOtherFailure(sys: Answers) {
    && sys.boot.Got? && sys.ns.Got?
    && (sys.fd.Failed? ==> sys.fd.failure.NotThere?) && (sys.start.Failed? ==> sys.start.failure.NotThere?)
    && (sys.uid.Failed? ==> sys.uid.failure.NotThere?)
  }

  /** A recorded process that is still there is taken for gone if and only if
      `/proc` hides it from the caller. */
  lemma LivingLooksGoneIffHidden(h: seq<World>, hidden: set<nat>, r: nat, rec: PidRecord, at: Times, sys: Answers)
    requires History(h) && Wrote(h[0], r, rec) && Observed(h, hidden, rec.pidns, rec.pid, at, sys) && PidfdFirst(at)
    requires r in h[at.uidRead].holding && rec.v == 1 && 1 < rec.pid <= I32_MAX && NoOtherFailure(sys)
    ensures Verify(rec, sys) == Gone <==> r in hidden
  {
    hide History, Wrote, Opens, Reads;
    BootOfAlive(h, at.uidRead, r, rec);
    AnswersAboutTheLiving(h, hidden, r, rec, at, sys);
  }

  /** A recorded process that runs throughout, and about which every call
      succeeds, is found to be ours exactly when its uid is still the recorded one. */
  lemma LivingIsOurs(h: seq<World>, hidden: set<nat>, r: nat, rec: PidRecord, at: Times, sys: Answers)
    requires History(h) && Wrote(h[0], r, rec) && Observed(h, hidden, rec.pidns, rec.pid, at, sys) && PidfdFirst(at)
    requires r in h[at.uidRead].holding && rec.v == 1 && 1 < rec.pid <= I32_MAX
    requires sys.boot.Got? && sys.ns.Got? && sys.fd.Got? && sys.start.Got? && sys.uid.Got?
    ensures Verify(rec, sys) == if UidIn(h[at.uidRead])(r) == rec.uid then Ours(r) else Mismatch("uid")
  {
    hide History, Wrote, Opens, Reads;
    BootOfAlive(h, at.uidRead, r, rec);
    AnswersAboutTheLiving(h, hidden, r, rec, at, sys);
  }

  /** One process holds the recorded pid from the first call to the last. */
  ghost predicate HeldThroughout(h: seq<World>, i: nat, ns: nat, pid: nat, at: Times) {
    at.fd < |h| && at.uidRead < |h| && Holds(h[at.fd], i, ns, pid) && i in h[at.uidRead].holding
  }

  lemma HolderAnswers(h: seq<World>, hidden: set<nat>, ns: nat, rec: PidRecord, at: Times, sys: Answers, i: nat)
    requires History(h) && Observed(h, hidden, ns, rec.pid, at, sys) && PidfdFirst(at)
    requires HeldThroughout(h, i, ns, rec.pid, at)
    ensures sys.fd != Failed(NotThere) && (sys.fd.Got? ==> sys.fd.value == i)
    ensures sys.start.Got? ==> sys.start.value == h[at.fd].procs[i].start && i !in hidden
    ensures sys.uid.Got? ==> sys.uid.value == UidIn(h[at.uidRead])(i) && i !in hidden
    ensures sys.start == Failed(NotThere) || sys.uid == Failed(NotThere) ==> i in hidden
  {
    hide Sound, Step, Reads;
    HistoryKeeps(h, at.fd, at.startOpen);
    HistoryKeeps(h, at.fd, at.startRead);
    HistoryKeeps(h, at.fd, at.uidOpen);
    HistoryKeeps(h, at.startOpen, at.uidRead);
    HistoryKeeps(h, at.startRead, at.uidRead);
    HistoryKeeps(h, at.uidOpen, at.uidRead);
    if sys.fd.Got? { OneHolder(h[at.fd], ns, rec.pid, sys.fd.value, i); }
    ReadOfHolder(h[at.startOpen], h[at.startRead], hidden, ns, rec.pid, StartIn(h[at.startRead]), sys.start, i);
    ReadOfHolder(h[at.uidOpen], h[at.uidRead], hidden, ns, rec.pid, UidIn(h[at.uidRead]), sys.uid, i);
  }

  predicate Readable(rec: PidRecord) { rec.v == 1 && 1 < rec.pid <= 0x7fff_ffff }

  /** What is said of a record, whoever holds the pid in it: one of another
      version, or of pid 0 or 1, is not trusted; of a readable one, another
      boot or a free pid is gone; a holder the caller cannot see looks gone; and a
      holder the caller sees is ours or not by its start time and uid. */
  lemma VerdictTells(h: seq<World>, hidden: set<nat>, ns: nat, rec: PidRecord, at: Times, sys: Answers)
    requires History(h) && Observed(h, hidden, ns, rec.pid, at, sys) && PidfdFirst(at)
    requires NoOtherFailure(sys)
    ensures rec.v != 1 ==> Verify(rec, sys).Unverifiable?
    ensures rec.v == 1 && (rec.pid <= 1 || rec.pid > 0x7fff_ffff) ==> Verify(rec, sys) == Mismatch("pid")
    ensures Readable(rec) && h[0].boot != rec.bootId ==> Verify(rec, sys) == Gone
    ensures Readable(rec) && h[0].boot == rec.bootId && ns != rec.pidns ==>
              Verify(rec, sys) == Mismatch("pid namespace")
    ensures Readable(rec) && h[0].boot == rec.bootId && ns == rec.pidns && Free(h[at.fd], ns, rec.pid) ==>
              Verify(rec, sys) == Gone
    ensures forall i: nat :: Readable(rec) && h[0].boot == rec.bootId && ns == rec.pidns
                             && HeldThroughout(h, i, ns, rec.pid, at) ==>
              Verify(rec, sys) ==
              if i in hidden then Gone
              else if h[at.fd].procs[i].start != rec.start then Mismatch("start time")
              else if UidIn(h[at.uidRead])(i) != rec.uid then Mismatch("uid")
              else Ours(i)
  {
    hide History, Reads, UidIn;
    forall i: nat | Readable(rec) && h[0].boot == rec.bootId && ns == rec.pidns
               && HeldThroughout(h, i, ns, rec.pid, at)
      ensures Verify(rec, sys) ==
              if i in hidden then Gone
              else if h[at.fd].procs[i].start != rec.start then Mismatch("start time")
              else if UidIn(h[at.uidRead])(i) != rec.uid then Mismatch("uid")
              else Ours(i)
    {
      HolderAnswers(h, hidden, ns, rec, at, sys, i);
    }
  }

  // ---- `down` ----

  /** What `down` did: whom it signalled, and whether it removed the pidfile. */
  datatype Outcome = Outcome(signal: Option<nat>, removed: bool, failed: bool)

  const LEFT_ALONE := Outcome(None, false, true)

  /** `stop_with`: `sent` is whether `terminate` succeeded, `exited` what `wait_exit` said. */
  function Stopped(recorded: Option<Recorded>, euid: nat, sys: Answers, sent: bool, exited: Answer<bool>): Outcome {
    if recorded.None? then Outcome(None, false, false)
    else if recorded.value.Record? && recorded.value.record.unit !in {None, Some("")} then LEFT_ALONE
    else if recorded.value.Record? && recorded.value.record.uid != euid then LEFT_ALONE
    else
      match Judge(recorded.value, sys)
      case Ours(fd) =>
        if !sent then LEFT_ALONE
        else if exited.Failed? then Outcome(Some(fd), false, true)
        else Outcome(Some(fd), exited.value, false)
      case Gone => Outcome(None, true, false)
      case _ => LEFT_ALONE
  }

  /** The mount of `/proc` hides only processes of users other than the caller. */
  predicate HidesOthersOnly(w: World, hidden: set<nat>, euid: nat) { forall i :: i in hidden ==> UidIn(w)(i) != euid }

  /** `down` signals only the process that wrote the record, of the caller's own
      uid and not run by systemd. It removes the pidfile only when that process no
      longer runs or is hidden; and where only other users' processes are hidden,
      only when it no longer runs or has another uid than the record says.
      `exited` is what the pidfd, which becomes readable when its process exits,
      says at position `later`. */
  lemma DownStopsOnlyTheRecorded(
      h: seq<World>, hidden: set<nat>, ns: nat, r: nat, rec: PidRecord, at: Times, sys: Answers,
      euid: nat, sent: bool, exited: Answer<bool>, later: nat)
    requires History(h) && Wrote(h[0], r, rec) && Observed(h, hidden, ns, rec.pid, at, sys) && PidfdFirst(at)
    requires at.uidRead <= later < |h|
    requires exited == Got(true) && sys.fd.Got? ==> !Running(h[later], sys.fd.value)
    ensures var did := Stopped(Some(Record(rec)), euid, sys, sent, exited);
            && (did.signal.Some? ==>
                  did.signal == Some(r) && rec.uid == euid && (rec.unit == None || rec.unit == Some("")))
            && (did.removed ==> !Running(h[later], r) || (r in hidden && rec.uid == euid))
            && (did.removed && HidesOthersOnly(h[at.uidRead], hidden, euid) ==>
                  !Running(h[later], r) || UidIn(h[at.uidRead])(r) != rec.uid)
  {
    hide History, Wrote, Opens, Reads, Verify, UidIn;
    var verdict := Verify(rec, sys);
    if verdict.Ours? {
      OursIsTheRecorded(h, hidden, ns, r, rec, at, sys);
      OursIsOpened(rec, sys);
    } else if verdict.Gone? {
      GoneIsGone(h, hidden, ns, r, rec, at, sys);
      if r !in h[at.uidRead].holding { StaysGone(h, at.uidRead, later, r, rec); }
    }
  }

  /** With no call failing for another reason, `down` removes the pidfile of a
      process that still runs if and only if the record is one that it acts on
      and the process is hidden. */
  lemma DownForgetsTheLivingIff(
      h: seq<World>, hidden: set<nat>, r: nat, rec: PidRecord, at: Times, sys: Answers,
      euid: nat, sent: bool, exited: Answer<bool>, later: nat)
    requires History(h) && Wrote(h[0], r, rec) && Observed(h, hidden, rec.pidns, rec.pid, at, sys) && PidfdFirst(at)
    requires at.uidRead <= later < |h| && Running(h[later], r)
    requires exited == Got(true) && sys.fd.Got? ==> !Running(h[later], sys.fd.value)
    requires rec.v == 1 && 1 < rec.pid <= I32_MAX && NoOtherFailure(sys)
    ensures Stopped(Some(Record(rec)), euid, sys, sent, exited).removed <==>
            (rec.unit == None || rec.unit == Some("")) && rec.uid == euid && r in hidden
  {
    hide History, Wrote, Opens, Reads, Verify;
    if r !in h[at.uidRead].holding { StaysGone(h, at.uidRead, later, r, rec); }
    LivingLooksGoneIffHidden(h, hidden, r, rec, at, sys);
    if Verify(rec, sys).Ours? {
      OursIsTheRecorded(h, hidden, rec.pidns, r, rec, at, sys);
      OursIsOpened(rec, sys);
    }
  }

  /** `down` does stop what it should: a recorded process that is there throughout
      is signalled, when every call succeeds, if and only if the record is the
      caller's own, not systemd's, and its uid is still the process's; and then the
      pidfile goes exactly when the process was seen to exit. */
  lemma DownStopsTheLivingIff(h: seq<World>, hidden: set<nat>, r: nat, rec: PidRecord, at: Times, sys: Answers,
                              euid: nat, exited: Answer<bool>)
    requires History(h) && Wrote(h[0], r, rec) && Observed(h, hidden, rec.pidns, rec.pid, at, sys) && PidfdFirst(at)
    requires r in h[at.uidRead].holding && rec.v == 1 && 1 < rec.pid <= 0x7fff_ffff
    requires sys.boot.Got? && sys.ns.Got? && sys.fd.Got? && sys.start.Got? && sys.uid.Got?
    ensures Stopped(Some(Record(rec)), euid, sys, true, exited) ==
            if (rec.unit == None || rec.unit == Some("")) && rec.uid == euid == UidIn(h[at.uidRead])(r)
            then Outcome(Some(r), exited == Got(true), exited.Failed?)
            else Outcome(None, false, true)
    ensures !Stopped(Some(Record(rec)), euid, sys, false, exited).removed
  {
    hide History, Wrote, Observed, Verify, UidIn;
    LivingIsOurs(h, hidden, r, rec, at, sys);
  }

  // ---- `status` ----

  /** What `status` says of a pidfile; `Refused` is the text of `refusal`. */
  datatype Shown = RunningAs(pid: nat) | StaleOf(pid: nat) | Refused(verdict: Verdict)

  function PidOf(recorded: Recorded): nat {
    match recorded
    case LegacyPid(pid) => pid
    case Record(rec) => rec.pid
  }

  /** `report`: what is shown, if there is a pidfile, and whether it is deleted. */
  function Reported(recorded: Option<Recorded>, sys: Answers): (Option<Shown>, bool) {
    if recorded.None? then (None, false)
    else
      match Judge(recorded.value, sys)
      case Ours(_) => (Some(RunningAs(PidOf(recorded.value))), false)
      case Gone => (Some(StaleOf(PidOf(recorded.value))), true)
      case other => (Some(Refused(other)), false)
  }

  /** `status` says that the pulse runs only of the process that wrote the record,
      and deletes the pidfile only when that process is gone or hidden. */
  lemma StatusSpeaksOfTheRecorded(
      h: seq<World>, hidden: set<nat>, ns: nat, r: nat, rec: PidRecord, at: Times, sys: Answers, later: nat)
    requires History(h) && Wrote(h[0], r, rec) && Observed(h, hidden, ns, rec.pid, at, sys) && PidfdFirst(at)
    requires at.uidRead <= later < |h|
    ensures var (shown, deleted) := Reported(Some(Record(rec)), sys);
            && (shown == Some(RunningAs(rec.pid)) ==> r in h[at.startRead].holding && sys.fd == Got(r))
            && (deleted ==> r !in h[later].holding || r in hidden)
  {
    hide History, Wrote, Opens, Reads, Verify;
    var verdict := Verify(rec, sys);
    if verdict.Ours? {
      OursIsTheRecorded(h, hidden, ns, r, rec, at, sys);
      OursIsOpened(rec, sys);
    } else if verdict.Gone? {
      GoneIsGone(h, hidden, ns, r, rec, at, sys);
      if r !in h[at.uidRead].holding { StaysGone(h, at.uidRead, later, r, rec); }
    }
  }

  /** Of a recorded process that is there throughout, `status` says that it runs,
      when every call succeeds, if and only if its uid is still the recorded one. */
  lemma StatusShowsTheLivingIff(h: seq<World>, hidden: set<nat>, r: nat, rec: PidRecord, at: Times, sys: Answers)
    requires History(h) && Wrote(h[0], r, rec) && Observed(h, hidden, rec.pidns, rec.pid, at, sys) && PidfdFirst(at)
    requires r in h[at.uidRead].holding && rec.v == 1 && 1 < rec.pid <= 0x7fff_ffff
    requires sys.boot.Got? && sys.ns.Got? && sys.fd.Got? && sys.start.Got? && sys.uid.Got?
    ensures Reported(Some(Record(rec)), sys) ==
            (Some(if UidIn(h[at.uidRead])(r) == rec.uid then RunningAs(rec.pid) else Refused(Mismatch("uid"))), false)
  {
    hide History, Wrote, Observed, Verify, UidIn;
    LivingIsOurs(h, hidden, r, rec, at, sys);
  }

  /** With no call failing for another reason, `status` deletes the pidfile of a
      process that is still there if and only if the process is hidden. */
  lemma StatusForgetsTheLivingIff(h: seq<World>, hidden: set<nat>, r: nat, rec: PidRecord, at: Times, sys: Answers)
    requires History(h) && Wrote(h[0], r, rec) && Observed(h, hidden, rec.pidns, rec.pid, at, sys) && PidfdFirst(at)
    requires r in h[at.uidRead].holding && rec.v == 1 && 1 < rec.pid <= I32_MAX && NoOtherFailure(sys)
    ensures Reported(Some(Record(rec)), sys).1 <==> r in hidden
  {
    hide History, Wrote, Opens, Reads, Verify;
    LivingLooksGoneIffHidden(h, hidden, r, rec, at, sys);
  }

  /** A pulse of user 1000 that runs, with `/proc` hiding other users' processes:
      `status` by user 1001 deletes its pidfile. */
  lemma StatusForgetsAnotherUsersPulse()
    returns (h: seq<World>, hidden: set<nat>, r: nat, rec: PidRecord, at: Times, sys: Answers)
    ensures History(h) && Wrote(h[0], r, rec) && Observed(h, hidden, rec.pidns, rec.pid, at, sys) && PidfdFirst(at)
    ensures HidesOthersOnly(h[at.uidRead], hidden, 1001) && rec.uid == 1000
    ensures Running(h[at.uidRead], r) && Reported(Some(Record(rec)), sys) == (Some(StaleOf(rec.pid)), true)
  {
    var w := World("boot", [Process("boot", map[7 := 42], 100)], {0}, {}, [1000]);
    h, hidden, r, rec, at := [w], {0}, 0, PidRecord(1, 42, 100, 7, "boot", 1000, None), Times(0, 0, 0, 0, 0);
    sys := Answers(Got("boot"), Got(7), Got(0), Failed(NotThere), Failed(NotThere));
    assert Holds(w, 0, 7, 42);
  }

  lemma OursIsOpened(rec: PidRecord, sys: Answers)
    requires Verify(rec, sys).Ours?
    ensures sys.fd == Got(Verify(rec, sys).fd)
  {
  }

  lemma StaysGone(h: seq<World>, s: nat, t: nat, r: nat, rec: PidRecord)
    requires History(h) && s <= t < |h| && Wrote(h[0], r, rec) && r !in h[s].holding
    ensures r !in h[t].holding
  {
    WroteStays(h, s, r, rec);
    HistoryKeeps(h, s, t);
  }

  // ---- `/proc/<pid>/stat` ----

  /** The last `)` of `s`, or its length. */
  function LastClose(s: string): (i: nat)
    ensures i <= |s| && (i < |s| ==> s[i] == ')')
  {
    if s == "" then 0
    else if s[|s| - 1] == ')' then |s| - 1
    else
      var i := LastClose(s[..|s| - 1]);
      if i == |s| - 1 then |s| else i
  }

  function WordEnd(s: string, at: nat): (r: nat)
    requires at <= |s|
    ensures at <= r <= |s| && (forall k :: at <= k < r ==> !IsWhitespace(s[k])) && (r == |s| || IsWhitespace(s[r]))
    decreases |s| - at
  {
    if at < |s| && !IsWhitespace(s[at]) then WordEnd(s, at + 1) else at
  }

  /** `str::split_whitespace`. */
  function Words(s: string): seq<string> {
    var start := StripFront(s, 0);
    if start == |s| then []
    else
      var end := WordEnd(s, start);
      if start < end then [s[start..end]] + Words(s[end..]) else []
  }

  const START_FIELD := 19

  /** `parse_start`. */
  function ParseStart(stat: string): Option<nat> {
    var close := LastClose(stat);
    if close == |stat| then None
    else
      var words := Words(stat[close + 1..]);
      if |words| <= START_FIELD then None else ParseUint(words[START_FIELD], U64)
  }

  lemma {:induction false} LastCloseAt(prefix: string, rest: string)
    requires ')' !in rest
    ensures LastClose(prefix + ")" + rest) == |prefix|
  {
    var s := prefix + ")" + rest;
    if rest == "" {
    } else {
      assert s[..|s| - 1] == prefix + ")" + rest[..|rest| - 1];
      assert s[|s| - 1] == rest[|rest| - 1] && rest[|rest| - 1] in rest;
      LastCloseAt(prefix, rest[..|rest| - 1]);
    }
  }

  /** Each field after a blank and then the end of the line, as the kernel writes them. */
  function Spaced(fields: seq<string>): string {
    if fields == [] then "\n" else " " + fields[0] + Spaced(fields[1..])
  }

  predicate Word(s: string) { s != "" && forall k :: 0 <= k < |s| ==> !IsWhitespace(s[k]) && s[k] != ')' }

  lemma {:induction false} WordsOfSpaced(fields: seq<string>)
    requires forall f :: f in fields ==> Word(f)
    ensures Words(Spaced(fields)) == fields && ')' !in Spaced(fields)
  {
    if fields != [] {
      var s, rest := Spaced(fields), Spaced(fields[1..]);
      WordsOfSpaced(fields[1..]);
      FirstWord(fields[0], rest);
      assert s == " " + fields[0] + rest;
    } else {
      assert StripFront("\n", 0) == 1;
    }
  }

  lemma FirstWord(word: string, rest: string)
    requires Word(word) && rest != "" && IsWhitespace(rest[0])
    ensures Words(" " + word + rest) == [word] + Words(rest)
  {
    var s := " " + word + rest;
    assert s[0] == ' ' && s[1] == word[0];
    var start := StripFront(s, 0);
    assert start == 1;
    var end := WordEnd(s, 1);
    assert forall k :: 0 <= k < |word| ==> s[1 + k] == word[k];
    assert s[1 + |word|] == rest[0];
    assert s[1..end] == word && s[end..] == rest;
  }

  /** The start time is read back whatever the command name contains: blanks,
      parentheses, or something that looks like more fields. */
  lemma StartSurvivesAnyCommand(pid: string, comm: string, fields: seq<string>, start: nat)
    requires |fields| >= 20 && (forall f :: f in fields ==> Word(f))
    requires fields[19] == Decimal(start) && start < U64
    ensures ParseStart(pid + " (" + comm + ")" + Spaced(fields)) == Some(start)
  {
    WordsOfSpaced(fields);
    LastCloseAt(pid + " (" + comm, Spaced(fields));
    var stat := pid + " (" + comm + ")" + Spaced(fields);
    assert stat[|pid + " (" + comm| + 1..] == Spaced(fields);
    DecimalRoundTrip(start, U64);
  }
}
