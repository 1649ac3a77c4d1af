/**
 * The child at the other end of the pipes: what it writes, when it exits, what an honest kernel then
 * answers, and that a process object which stops running has received all of it.
 */
module ChildOutput {
  import opened Common
  import opened ChildProcess

  /** A pipe seen from outside: everything written into it, what is still in it, and what was handed on. */
  datatype Stream = Stream(written: string, unread: string, taken: string)

  datatype World = World(s: State, alive: bool, out: Stream, err: Stream)

  /** What the child does between two system calls of the parent. */
  datatype Activity = Activity(toOut: string, toErr: string, exits: bool)

  datatype WorldEvent =
    | ChildActs(a: Activity)
    | Updating(beforeOut: Activity, beforeErr: Activity, beforeWait: Activity, k: Kernel)
    | TakingOutput

  function Push(p: Stream, data: string): Stream {
    p.(written := p.written + data, unread := p.unread + data)
  }

  function Pull(p: Stream, n: nat): Stream {
    p.(unread := if n <= |p.unread| then p.unread[n..] else "")
  }

  /** Only a living child writes, and it is the only one who holds the write ends. */
  function Act(w: World, a: Activity): World {
    if !w.alive then w
    else w.(alive := !a.exits, out := Push(w.out, a.toOut), err := Push(w.err, a.toErr))
  }

  function DrainedOut(w: World, k: Kernel): World {
    var u := w.(s := AfterOut(w.s, k));
    if Drains(w.s, k, w.s.ofd, k.outReady) then u.(out := Pull(w.out, |Concat(k.out.chunks)|)) else u
  }

  function DrainedErr(w: World, k: Kernel): World {
    var u := w.(s := AfterErr(w.s, k));
    if Drains(w.s, k, w.s.efd, k.errReady) then u.(err := Pull(w.err, |Concat(k.err.chunks)|)) else u
  }

  /** The worlds before poll, before reading the output, before reading the errors, before wait. */
  function AtPoll(c: Config, w: World, e: WorldEvent): World
    requires e.Updating?
  {
    w.(s := AfterFeed(c, AfterTimeout(c, w.s, e.k.now), e.k.write))
  }

  function AtOut(c: Config, w: World, e: WorldEvent): World
    requires e.Updating?
  {
    Act(AtPoll(c, w, e), e.beforeOut)
  }

  function AtErr(c: Config, w: World, e: WorldEvent): World
    requires e.Updating?
  {
    Act(DrainedOut(AtOut(c, w, e), e.k), e.beforeErr)
  }

  function AtWait(c: Config, w: World, e: WorldEvent): World
    requires e.Updating?
  {
    Act(DrainedErr(AtErr(c, w, e), e.k), e.beforeWait)
  }

  function Next(c: Config, w: World, e: WorldEvent): World {
    match e
    case ChildActs(a) => Act(w, a)
    case TakingOutput =>
      w.(s := Handle(c, w.s, TakesOutput),
         out := w.out.(taken := w.out.taken + w.s.stdoutData), err := w.err.(taken := w.err.taken + w.s.stderrData))
    case Updating(_, _, _, k) => var v := AtWait(c, w, e); v.(s := AfterWait(v.s, k.wait))
  }

  // ---------- An honest kernel ----------

  /** A pipe with something in it or without a writer is ready. */
  predicate PollHonest(w: World, k: Kernel) {
    && (w.out.unread != "" || !w.alive ==> k.outReady)
    && (w.err.unread != "" || !w.alive ==> k.errReady)
  }

  /** Reads deliver what is in the pipe; they end at its end only, unless a signal interrupts them. */
  predicate ReadHonest(p: Stream, alive: bool, r: Reads) {
    && Concat(r.chunks) <= p.unread
    && match r.last
       case EndOfFile => Concat(r.chunks) == p.unread && !alive
       case WouldBlock => Concat(r.chunks) == p.unread && alive
       case ReadInterrupted => true
       case ReadError => false
  }

  predicate Honest(c: Config, w: World, e: WorldEvent) {
    e.Updating? ==>
      && PollHonest(AtPoll(c, w, e), e.k)
      && ReadHonest(AtOut(c, w, e).out, AtOut(c, w, e).alive, e.k.out)
      && ReadHonest(AtErr(c, w, e).err, AtErr(c, w, e).alive, e.k.err)
      && (e.k.wait.Exited? || e.k.wait.NoChild? ==> !AtWait(c, w, e).alive)
  }

  function RunWorld(c: Config, w: World, events: seq<WorldEvent>): World {
    if events == [] then w else Next(c, RunWorld(c, w, events[..|events| - 1]), events[|events| - 1])
  }

  predicate HonestRun(c: Config, w: World, events: seq<WorldEvent>) {
    events == [] ||
    (HonestRun(c, w, events[..|events| - 1])
      && Honest(c, RunWorld(c, w, events[..|events| - 1]), events[|events| - 1]))
  }

  /** A signal ends the reading before all that is in the pipe was delivered. */
  predicate CutShort(p: Stream, r: Reads) {
    r.last == ReadInterrupted && Concat(r.chunks) != p.unread
  }

  // ---------- What is kept ----------

  /** Handed on, buffered and unread bytes are the written ones; a pipe is closed when it is exhausted. */
  predicate StreamKept(fd: int, data: string, p: Stream, alive: bool) {
    p.taken + data + p.unread == p.written && (fd < 0 ==> p.unread == "" && !alive)
  }

  predicate Kept(w: World, out: bool, err: bool) {
    && (out ==> StreamKept(w.s.ofd, w.s.stdoutData, w.out, w.alive))
    && (err ==> StreamKept(w.s.efd, w.s.stderrData, w.err, w.alive))
    && (w.s.pid < 0 ==> !w.alive)
  }

  lemma PushKeeps(fd: int, data: string, p: Stream, more: string, exits: bool)
    requires StreamKept(fd, data, p, true)
    ensures StreamKept(fd, data, Push(p, more), !exits)
  {
    assert p.taken + data + (p.unread + more) == (p.taken + data + p.unread) + more;
  }

  lemma PullKeeps(fd: int, data: string, p: Stream, alive: bool, r: Reads)
    requires StreamKept(fd, data, p, alive) && fd >= 0 && ReadHonest(p, alive, r)
    ensures StreamKept(if Ends(r) then -1 else fd, data + Concat(r.chunks), Pull(p, |Concat(r.chunks)|), alive)
    ensures Pull(p, |Concat(r.chunks)|).unread == "" <==> !CutShort(p, r)
  {
    hide Concat;
    var got := Concat(r.chunks);
    assert p.unread == got + p.unread[|got|..];
    assert p.taken + (data + got) + p.unread[|got|..] == p.taken + data + (got + p.unread[|got|..]);
  }

  lemma ActKeeps(w: World, a: Activity, out: bool, err: bool)
    requires Kept(w, out, err)
    ensures Kept(Act(w, a), out, err) && Act(w, a).s == w.s
    ensures !w.alive ==> Act(w, a) == w
  {
    hide StreamKept, Push;
    if w.alive {
      if out { PushKeeps(w.s.ofd, w.s.stdoutData, w.out, a.toOut, a.exits); }
      if err { PushKeeps(w.s.efd, w.s.stderrData, w.err, a.toErr, a.exits); }
    }
  }

  /** Nothing but the output side differs. */
  predicate SameProcess(s: State, t: State) {
    t.pid == s.pid && t.terminated == s.terminated
  }

  lemma PollKeeps(c: Config, w: World, e: WorldEvent, out: bool, err: bool)
    requires e.Updating? && Kept(w, out, err)
    ensures var v := AtPoll(c, w, e);
      && Kept(v, out, err) && SameProcess(w.s, v.s) && v.alive == w.alive && v.out == w.out && v.err == w.err
      && v.s.ofd == w.s.ofd && v.s.efd == w.s.efd
  {
    hide StreamKept;
    var t := AfterTimeout(c, w.s, e.k.now);
    assert t.ofd == w.s.ofd && t.efd == w.s.efd && SameProcess(w.s, t)
      && t.stdoutData == w.s.stdoutData && t.stderrData == w.s.stderrData;
    FeedKeepsOutput(c, t, e.k.write);
  }

  lemma FeedKeepsOutput(c: Config, s: State, write: WriteAnswer)
    ensures var t := AfterFeed(c, s, write);
      && t.ofd == s.ofd && t.efd == s.efd && SameProcess(s, t)
      && t.stdoutData == s.stdoutData && t.stderrData == s.stderrData
  {
    Writes(s, write);
  }

  lemma OutKeeps(w: World, k: Kernel, out: bool, err: bool)
    requires Kept(w, out, err) && ReadHonest(w.out, w.alive, k.out)
    ensures var v := DrainedOut(w, k);
      && Kept(v, out, err) && SameProcess(w.s, v.s) && v.alive == w.alive && v.err == w.err && v.s.efd == w.s.efd
      && (Drains(w.s, k, w.s.ofd, k.outReady) && out ==> (v.out.unread == "" <==> !CutShort(w.out, k.out)))
      && (!Drains(w.s, k, w.s.ofd, k.outReady) ==> v.out == w.out && v.s.ofd == w.s.ofd)
  {
    hide StreamKept, ReadHonest, Concat, CutShort;
    if out && Drains(w.s, k, w.s.ofd, k.outReady) {
      PullKeeps(w.s.ofd, w.s.stdoutData, w.out, w.alive, k.out);
    }
  }

  lemma ErrKeeps(w: World, k: Kernel, out: bool, err: bool)
    requires Kept(w, out, err) && ReadHonest(w.err, w.alive, k.err)
    ensures var v := DrainedErr(w, k);
      && Kept(v, out, err) && SameProcess(w.s, v.s) && v.alive == w.alive && v.out == w.out && v.s.ofd == w.s.ofd
      && (Drains(w.s, k, w.s.efd, k.errReady) && err ==> (v.err.unread == "" <==> !CutShort(w.err, k.err)))
      && (!Drains(w.s, k, w.s.efd, k.errReady) ==> v.err == w.err && v.s.efd == w.s.efd)
  {
    hide StreamKept, ReadHonest, Concat, CutShort;
    if err && Drains(w.s, k, w.s.efd, k.errReady) {
      PullKeeps(w.s.efd, w.s.stderrData, w.err, w.alive, k.err);
    }
  }

  /** The process state in the world moves as the step function says. */
  lemma NextIsStep(c: Config, w: World, e: WorldEvent)
    requires e.Updating?
    ensures Next(c, w, e).s == Step(c, w.s, e.k)
  {
    hide AfterTimeout, AfterFeed, AfterOut, AfterErr, AfterWait;
  }

  /** The stages of one step, each with what it keeps. */
  lemma UpdateKeeps(c: Config, w: World, e: WorldEvent, out: bool, err: bool)
    requires e.Updating? && Kept(w, out, err) && Honest(c, w, e)
    ensures Kept(Next(c, w, e), out, err)
  {
    hide StreamKept, ReadHonest, PollHonest, AtPoll, DrainedOut, DrainedErr, Act;
    PollKeeps(c, w, e, out, err);
    ActKeeps(AtPoll(c, w, e), e.beforeOut, out, err);
    OutKeeps(AtOut(c, w, e), e.k, out, err);
    ActKeeps(DrainedOut(AtOut(c, w, e), e.k), e.beforeErr, out, err);
    ErrKeeps(AtErr(c, w, e), e.k, out, err);
    ActKeeps(DrainedErr(AtErr(c, w, e), e.k), e.beforeWait, out, err);
  }

  lemma TakeKeeps(c: Config, w: World, out: bool, err: bool)
    requires Kept(w, out, err)
    ensures Kept(Next(c, w, TakingOutput), out, err)
  {
    assert w.out.taken + w.s.stdoutData + "" + w.out.unread == w.out.taken + w.s.stdoutData + w.out.unread;
    assert w.err.taken + w.s.stderrData + "" + w.err.unread == w.err.taken + w.s.stderrData + w.err.unread;
  }

  lemma {:induction false} RunKeeps(c: Config, w: World, events: seq<WorldEvent>, out: bool, err: bool)
    requires Kept(w, out, err) && HonestRun(c, w, events)
    ensures Kept(RunWorld(c, w, events), out, err)
  {
    hide Kept, Honest, AtWait, Act;
    if events != [] {
      var v, e := RunWorld(c, w, events[..|events| - 1]), events[|events| - 1];
      RunKeeps(c, w, events[..|events| - 1], out, err);
      match e
      case ChildActs(a) => ActKeeps(v, a, out, err);
      case TakingOutput => TakeKeeps(c, v, out, err);
      case Updating(_, _, _, _) => UpdateKeeps(c, v, e, out, err);
    }
  }

  /** A started child: nothing written yet, and the pipes that are watched are open. */
  predicate Started(w: World, out: bool, err: bool) {
    && w.s.pid > 0 && !w.s.terminated && w.alive
    && w.s.stdoutData == "" && w.s.stderrData == ""
    && w.out == Stream("", "", "") && w.err == Stream("", "", "")
    && (out ==> w.s.ofd >= 0) && (err ==> w.s.efd >= 0)
  }

  /** The step that ends the process drains what a dead child left, as far as it is not cut short. */
  lemma LastStepDrains(c: Config, w: World, e: WorldEvent, out: bool, err: bool)
    requires e.Updating? && Kept(w, out, err) && Honest(c, w, e) && w.s.pid < 0
    ensures out ==> (Next(c, w, e).out.unread == "" <==> !CutShort(AtOut(c, w, e).out, e.k.out))
    ensures err ==> (Next(c, w, e).err.unread == "" <==> !CutShort(AtErr(c, w, e).err, e.k.err))
  {
    hide AtPoll, DrainedOut, DrainedErr, Act, Concat;
    PollKeeps(c, w, e, out, err);
    ActKeeps(AtPoll(c, w, e), e.beforeOut, out, err);
    OutKeeps(AtOut(c, w, e), e.k, out, err);
    ActKeeps(DrainedOut(AtOut(c, w, e), e.k), e.beforeErr, out, err);
    ErrKeeps(AtErr(c, w, e), e.k, out, err);
    ActKeeps(DrainedErr(AtErr(c, w, e), e.k), e.beforeWait, out, err);
  }

  lemma NothingUnread(p: Stream, data: string)
    requires p.taken + data + p.unread == p.written
    ensures p.taken + data == p.written <==> p.unread == ""
  {
    if p.unread == "" {
      assert p.taken + data + "" == p.taken + data;
    }
  }

  /**
   * No output is lost at exit: in every honest run, when a step makes the process stop running, the bytes
   * handed on before and the buffered ones are all bytes the child ever wrote, if and only if the reading in
   * that very step was not cut short. This holds for each of the two pipes that was not ignored.
   */
  lemma NoOutputLost(c: Config, w: World, events: seq<WorldEvent>, e: WorldEvent, out: bool, err: bool)
    requires Started(w, out, err) && HonestRun(c, w, events) && Honest(c, RunWorld(c, w, events), e)
    requires !RunWorld(c, w, events).s.terminated && Next(c, RunWorld(c, w, events), e).s.terminated
    ensures e.Updating?
    ensures var u, v := RunWorld(c, w, events), Next(c, RunWorld(c, w, events), e);
      && (out ==> (v.out.taken + v.s.stdoutData == v.out.written <==> !CutShort(AtOut(c, u, e).out, e.k.out)))
      && (err ==> (v.err.taken + v.s.stderrData == v.err.written <==> !CutShort(AtErr(c, u, e).err, e.k.err)))
      && !v.alive
  {
    hide RunWorld, HonestRun, Next, Honest, CutShort, AtOut, AtErr;
    assert Kept(w, out, err);
    RunKeeps(c, w, events, out, err);
    var u, v := RunWorld(c, w, events), Next(c, RunWorld(c, w, events), e);
    OnlyStepsEnd(c, u, e);
    UpdateKeeps(c, u, e, out, err);
    LastStepDrains(c, u, e, out, err);
    if out {
      NothingUnread(v.out, v.s.stdoutData);
    }
    if err {
      NothingUnread(v.err, v.s.stderrData);
    }
  }

  lemma OnlyStepsEnd(c: Config, w: World, e: WorldEvent)
    requires !w.s.terminated && Next(c, w, e).s.terminated
    ensures e.Updating? && w.s.pid < 0 && Next(c, w, e).s.pid < 0
  {
    hide AtWait, Step, AfterWait;
    if e.Updating? {
      NextIsStep(c, w, e);
      StepBook(c, w.s, e.k, 0);
    }
  }

  // ---------- The exception is real ----------

  const IDLE := Activity("", "", false)

  const NO_TIMEOUT := Config(0, 0, false)

  const STARTED := World(State(7, -1, 3, -1, "", "", "", false, false, -1, []), true, Stream("", "", ""), Stream("", "", ""))

  /** The child writes and exits right before it is reaped. */
  const REAPED := Updating(IDLE, IDLE, Activity("x", "", true),
    Kernel(0, WriteBlocked, false, false, false, Reads([], WouldBlock), Reads([], WouldBlock), Exited(0)))

  /** A signal interrupts the last read. */
  const INTERRUPTED := Updating(IDLE, IDLE, IDLE,
    Kernel(0, WriteBlocked, false, true, true, Reads([], ReadInterrupted), Reads([], EndOfFile), NoChild))

  lemma InterruptedReadLosesOutput()
    ensures Started(STARTED, true, false) && HonestRun(NO_TIMEOUT, STARTED, [REAPED])
    ensures var w := RunWorld(NO_TIMEOUT, STARTED, [REAPED]);
      var v := Next(NO_TIMEOUT, w, INTERRUPTED);
      && Honest(NO_TIMEOUT, w, INTERRUPTED) && !w.s.terminated && v.s.terminated
      && v.out.written == "x" && v.out.taken + v.s.stdoutData == ""
  {
    var w := Next(NO_TIMEOUT, STARTED, REAPED);
    assert "" + "" == "" && Concat([]) == "" && "" <= "";
    assert AtOut(NO_TIMEOUT, STARTED, REAPED) == STARTED;
    assert AtErr(NO_TIMEOUT, STARTED, REAPED) == STARTED;
    assert Honest(NO_TIMEOUT, STARTED, REAPED);
    assert [REAPED][..0] == [];
    assert RunWorld(NO_TIMEOUT, STARTED, []) == STARTED;
    assert RunWorld(NO_TIMEOUT, STARTED, [REAPED]) == w;
    assert w.s.pid == -1 && w.out == Stream("x", "x", "") && !w.alive;
  }
}
