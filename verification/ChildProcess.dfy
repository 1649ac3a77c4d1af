/**
 * The POSIX child process: the step function that feeds and drains the pipes, enforces the timeout and
 * reaps the child, against a kernel that answers each system call as it likes.
 */
module ChildProcess {
  import opened Common

  // ---------- The kernel ----------

  datatype WriteAnswer = Takes(n: nat) | WriteBlocked | WriteError

  datatype ReadEnd = EndOfFile | WouldBlock | ReadInterrupted | ReadError

  /** The answers to the read calls of one drain loop: non-empty chunks and how it ends. */
  datatype Reads = Reads(chunks: seq<string>, last: ReadEnd)

  datatype WaitAnswer = StillRunning | Exited(status: nat) | NoChild | WaitInterrupted | WaitFailed

  /** What the kernel answers during one step. */
  datatype Kernel = Kernel(
    now: int, write: WriteAnswer, pollFailed: bool, outReady: bool, errReady: bool,
    out: Reads, err: Reads, wait: WaitAnswer)

  datatype SignalName = SIGINT | SIGQUIT | SIGTERM | SIGKILL

  datatype Cause = Timeout | KillCall

  /** The effects a process object has on the outside. */
  datatype Call =
    | Signals(pid: int, name: SignalName, cause: Cause, at: int)
    | Accepts(data: string)
    | Drops(data: string)
    | Closes(fd: int)

  const FORCE_KILL_AFTER := 2500

  // ---------- One step, on values ----------

  datatype Config = Config(timeoutMs: int, startTime: int, noAutoClose: bool)

  datatype State = State(
    pid: int, ifd: int, ofd: int, efd: int,
    stdinData: string, stdoutData: string, stderrData: string,
    wasTimeout: bool, terminated: bool, exitCode: int, log: seq<Call>)

  function Note(s: State, call: Call): State {
    s.(log := s.log + [call])
  }

  function Close(s: State, fd: int): State {
    if fd >= 0 then Note(s, Closes(fd)) else s
  }

  function AfterTimeout(c: Config, s: State, now: int): State {
    var dt := now - c.startTime;
    if c.timeoutMs <= 1 || s.pid <= 0 || dt <= c.timeoutMs then s
    else if !s.wasTimeout then
      Note(Note(s.(wasTimeout := true), Signals(s.pid, SIGINT, Timeout, now)), Signals(s.pid, SIGQUIT, Timeout, now))
    else if dt > c.timeoutMs + FORCE_KILL_AFTER then Note(s, Signals(s.pid, SIGKILL, Timeout, now))
    else s
  }

  function ClosedIn(s: State): State {
    Close(s, s.ifd).(ifd := if s.ifd >= 0 then -1 else s.ifd)
  }

  /** One write of the waiting input. */
  function AfterWrite(s: State, write: WriteAnswer): State {
    var data := s.stdinData;
    if data == "" then s
    else match write
      case WriteBlocked => s
      case WriteError => Note(s, Drops(data)).(stdinData := "")
      case Takes(n) =>
        if n == 0 then Note(s, Drops(data)).(stdinData := "")
        else if n >= |data| then Note(s, Accepts(data)).(stdinData := "")
        else Note(s, Accepts(data[..n])).(stdinData := data[n..])
  }

  function AfterFeed(c: Config, s: State, write: WriteAnswer): State {
    if s.ifd < 0 then s
    else
      var t := AfterWrite(s, write);
      if t.stdinData == "" && !c.noAutoClose then ClosedIn(t) else t
  }

  predicate Ends(r: Reads) {
    r.last == EndOfFile || r.last == ReadError
  }

  /** A pipe is read when it is ready, or by force when poll was not successful. */
  predicate Drains(s: State, k: Kernel, fd: int, ready: bool) {
    fd >= 0 && (s.terminated || k.pollFailed || ready)
  }

  function AfterOut(s: State, k: Kernel): State {
    if !Drains(s, k, s.ofd, k.outReady) then s
    else
      var t := s.(stdoutData := s.stdoutData + Concat(k.out.chunks));
      if Ends(k.out) then Close(t, t.ofd).(ofd := -1) else t
  }

  function AfterErr(s: State, k: Kernel): State {
    if !Drains(s, k, s.efd, k.errReady) then s
    else
      var t := s.(stderrData := s.stderrData + Concat(k.err.chunks));
      if Ends(k.err) then Close(t, t.efd).(efd := -1) else t
  }

  /** The exit code the kernel reports, in the second byte of the status. */
  function ExitStatus(w: WaitAnswer): int {
    if w.Exited? then (w.status / 256) % 256 else 0
  }

  function AfterWait(s: State, wait: WaitAnswer): State {
    if s.pid < 0 then s.(terminated := true)
    else if wait.Exited? || wait.NoChild? then s.(exitCode := ExitStatus(wait), pid := -1)
    else s
  }

  function Step(c: Config, s: State, k: Kernel): State {
    AfterWait(AfterErr(AfterOut(AfterFeed(c, AfterTimeout(c, s, k.now), k.write), k), k), k.wait)
  }

  function AfterClose(s: State, polite: WaitAnswer, now: int): State {
    var t := Close(Close(Close(s, s.ifd), s.ofd), s.efd).(ifd := -1, ofd := -1, efd := -1);
    if s.pid <= 0 then t.(pid := -1)
    else
      var u := Note(t, Signals(s.pid, SIGTERM, KillCall, now));
      if polite.StillRunning? || polite.NoChild? then Note(u, Signals(s.pid, SIGKILL, KillCall, now)) else u
  }

  function AfterSignal(s: State, dash9: bool, now: int): State {
    if dash9 then Note(s, Signals(s.pid, SIGKILL, KillCall, now))
    else Note(Note(s, Signals(s.pid, SIGINT, KillCall, now)), Signals(s.pid, SIGQUIT, KillCall, now))
  }

  function Killed(c: Config, s: State, dash9: bool, polite: WaitAnswer, k: Kernel): State {
    if s.pid < 0 then s
    else Step(c, AfterClose(AfterSignal(s, dash9, k.now), polite, k.now), k).(exitCode := -1)
  }

  // ---------- The object ----------

  class Process {
    var pid: int
    var ifd: int
    var ofd: int
    var efd: int
    var stdinData: string
    var stdoutData: string
    var stderrData: string
    var wasTimeout: bool
    var terminated: bool
    var exitCode: int
    const config: Config
    ghost var log: seq<Call>

    ghost function View(): State
      reads this
    {
      State(pid, ifd, ofd, efd, stdinData, stdoutData, stderrData, wasTimeout, terminated, exitCode, log)
    }

    /** The object after a successful fork: the pipes that are not used are already closed. */
    constructor (config: Config, pid: int, ifd: int, ofd: int, efd: int, stdinData: string)
      ensures View() == State(pid, ifd, ofd, efd, stdinData, "", "", false, false, -1, [])
      ensures this.config == config
    {
      this.config, this.pid, this.ifd, this.ofd, this.efd := config, pid, ifd, ofd, efd;
      this.stdinData, stdoutData, stderrData := stdinData, "", "";
      wasTimeout, terminated, exitCode, log := false, false, -1, [];
    }

    method ClosePipe(fd: int) returns (closed: int)
      modifies `log
      ensures closed == if fd >= 0 then -1 else fd
      ensures View() == Close(old(View()), fd)
    {
      closed := fd;
      if fd >= 0 {
        log := log + [Closes(fd)];
        closed := -1;
      }
    }

    method CheckTimeout(now: int)
      modifies `wasTimeout, `log
      ensures View() == AfterTimeout(config, old(View()), now)
    {
      if config.timeoutMs > 1 && pid > 0 {
        var dt := now - config.startTime;
        if dt > config.timeoutMs {
          if !wasTimeout {
            wasTimeout := true;
            log := log + [Signals(pid, SIGINT, Timeout, now)];
            log := log + [Signals(pid, SIGQUIT, Timeout, now)];
          } else if dt > config.timeoutMs + FORCE_KILL_AFTER {
            log := log + [Signals(pid, SIGKILL, Timeout, now)];
          }
        }
      }
    }

    method FeedStdin(write: WriteAnswer)
      modifies `stdinData, `ifd, `log
      ensures View() == AfterFeed(config, old(View()), write)
    {
      if ifd >= 0 {
        if stdinData == "" {
          if !config.noAutoClose {
            ifd := ClosePipe(ifd);
          }
        } else {
          match write {
            case WriteBlocked =>
            case WriteError =>
              log, stdinData := log + [Drops(stdinData)], "";
            case Takes(n) =>
              if n == 0 {
                log, stdinData := log + [Drops(stdinData)], "";
              } else if n >= |stdinData| {
                log, stdinData := log + [Accepts(stdinData)], "";
              } else {
                log, stdinData := log + [Accepts(stdinData[..n])], stdinData[n..];
              }
          }
        }
        if stdinData == "" && !config.noAutoClose {
          ifd := ClosePipe(ifd);
        }
      }
    }

    /** Reads until nothing is delivered. */
    method Drain(r: Reads) returns (data: string)
      ensures data == Concat(r.chunks)
    {
      data := "";
      var i := 0;
      assert r.chunks[0..] == r.chunks;
      while i < |r.chunks|
        invariant i <= |r.chunks| && data + Concat(r.chunks[i..]) == Concat(r.chunks)
      {
        assert r.chunks[i..][1..] == r.chunks[i + 1..];
        data := data + r.chunks[i];
        i := i + 1;
      }
    }

    method DrainOut(k: Kernel)
      modifies `stdoutData, `ofd, `log
      ensures View() == AfterOut(old(View()), k)
    {
      if ofd >= 0 && ((k.outReady && !terminated) || terminated || k.pollFailed) {
        var data := Drain(k.out);
        stdoutData := stdoutData + data;
        if k.out.last == EndOfFile || k.out.last == ReadError {
          ofd := ClosePipe(ofd);
        }
      }
    }

    method DrainErr(k: Kernel)
      modifies `stderrData, `efd, `log
      ensures View() == AfterErr(old(View()), k)
    {
      if efd >= 0 && ((k.errReady && !terminated) || terminated || k.pollFailed) {
        var data := Drain(k.err);
        stderrData := stderrData + data;
        if k.err.last == EndOfFile || k.err.last == ReadError {
          efd := ClosePipe(efd);
        }
      }
    }

    method Update(k: Kernel) returns (running: bool)
      modifies this
      ensures View() == Step(config, old(View()), k)
      ensures running == !terminated
    {
      CheckTimeout(k.now);
      FeedStdin(k.write);
      DrainOut(k);
      DrainErr(k);
      if pid < 0 {
        terminated := true;
      } else {
        match k.wait {
          case Exited(status) =>
            exitCode, pid := (status / 256) % 256, -1;
          case NoChild =>
            exitCode, pid := 0, -1;
          case _ =>
        }
      }
      running := !terminated;
    }

    /** Closes all pipes, asks the child to terminate, and forces it to when it is still there. */
    method CloseHandles(polite: WaitAnswer, now: int)
      modifies this
      ensures View() == AfterClose(old(View()), polite, now)
    {
      hide Close;
      var _ := ClosePipe(ifd);
      var _ := ClosePipe(ofd);
      var _ := ClosePipe(efd);
      ifd, ofd, efd := -1, -1, -1;
      if pid > 0 {
        log := log + [Signals(pid, SIGTERM, KillCall, now)];
        if polite.StillRunning? || polite.NoChild? {
          log := log + [Signals(pid, SIGKILL, KillCall, now)];
        }
      } else {
        pid := -1;
      }
    }

    method SendSignals(dash9: bool, now: int)
      modifies `log
      ensures View() == AfterSignal(old(View()), dash9, now)
    {
      if dash9 {
        log := log + [Signals(pid, SIGKILL, KillCall, now)];
      } else {
        log := log + [Signals(pid, SIGINT, KillCall, now)];
        log := log + [Signals(pid, SIGQUIT, KillCall, now)];
      }
    }

    method Kill(dash9: bool, polite: WaitAnswer, k: Kernel)
      modifies this
      ensures View() == Killed(config, old(View()), dash9, polite, k)
    {
      hide Step, AfterClose, AfterSignal;
      if pid < 0 {
        return;
      }
      SendSignals(dash9, k.now);
      CloseHandles(polite, k.now);
      var _ := Update(k);
      exitCode := -1;
    }
  }

  // ---------- Runs ----------

  datatype Event = Updates(k: Kernel) | Kills(dash9: bool, polite: WaitAnswer, k: Kernel) | TakesOutput

  function Handle(c: Config, s: State, e: Event): State {
    match e
    case Updates(k) => Step(c, s, k)
    case Kills(dash9, polite, k) => Killed(c, s, dash9, polite, k)
    case TakesOutput => s.(stdoutData := "", stderrData := "")
  }

  function Run(c: Config, s: State, events: seq<Event>): State {
    if events == [] then s else Handle(c, Run(c, s, events[..|events| - 1]), events[|events| - 1])
  }

  /** Any number of steps, kills and hand-overs of output on one object. */
  method Perform(p: Process, events: seq<Event>)
    modifies p
    ensures p.View() == Run(p.config, old(p.View()), events)
  {
    hide Step, Killed;
    var i := 0;
    while i < |events|
      invariant i <= |events| && p.View() == Run(p.config, old(p.View()), events[..i])
    {
      assert events[..i + 1][..i] == events[..i];
      match events[i] {
        case Updates(k) => var _ := p.Update(k);
        case Kills(dash9, polite, k) => p.Kill(dash9, polite, k);
        case TakesOutput => p.stdoutData, p.stderrData := "", "";
      }
      i := i + 1;
    }
    assert events[..i] == events;
  }

  // ---------- What the calls amount to ----------

  /** The bytes sent and lost, the descriptors closed, and the signals sent by the timeout and in all. */
  datatype Ledger = Ledger(sent: string, lost: string, closed: multiset<int>,
    interrupts: nat, quits: nat, forced: nat, signals: nat)

  function Post(b: Ledger, call: Call): Ledger {
    match call
    case Accepts(data) => b.(sent := b.sent + data)
    case Drops(data) => b.(lost := b.lost + data)
    case Closes(fd) => b.(closed := b.closed + multiset{fd})
    case Signals(_, name, cause, _) =>
      b.(signals := b.signals + 1,
         interrupts := b.interrupts + (if name == SIGINT && cause == Timeout then 1 else 0),
         quits := b.quits + (if name == SIGQUIT && cause == Timeout then 1 else 0),
         forced := b.forced + (if name == SIGKILL && cause == Timeout then 1 else 0))
  }

  function Book(log: seq<Call>): Ledger {
    if log == [] then Ledger("", "", multiset{}, 0, 0, 0, 0)
    else Post(Book(log[..|log| - 1]), log[|log| - 1])
  }

  lemma Noted(s: State, call: Call)
    ensures Book(Note(s, call).log) == Post(Book(s.log), call)
  {
    assert (s.log + [call])[..|s.log|] == s.log;
  }

  function Shut(b: Ledger, fd: int): Ledger {
    if fd >= 0 then b.(closed := b.closed + multiset{fd}) else b
  }

  lemma Closed(s: State, fd: int)
    ensures Book(Close(s, fd).log) == Shut(Book(s.log), fd)
  {
    hide Book;
    Noted(s, Closes(fd));
  }

  predicate Warns(c: Config, s: State, now: int) {
    c.timeoutMs > 1 && s.pid > 0 && now - c.startTime > c.timeoutMs && !s.wasTimeout
  }

  predicate Forces(c: Config, s: State, now: int) {
    c.timeoutMs > 1 && s.pid > 0 && now - c.startTime > c.timeoutMs + FORCE_KILL_AFTER && s.wasTimeout
  }

  function Count(b: bool): nat {
    if b then 1 else 0
  }

  lemma TimeoutBook(c: Config, s: State, now: int)
    ensures var b, warns, forces := Book(s.log), Warns(c, s, now), Forces(c, s, now);
      Book(AfterTimeout(c, s, now).log) ==
        b.(interrupts := b.interrupts + Count(warns), quits := b.quits + Count(warns), forced := b.forced + Count(forces),
           signals := b.signals + 2 * Count(warns) + Count(forces))
  {
    hide Book;
    var t := s.(wasTimeout := true);
    Noted(t, Signals(s.pid, SIGINT, Timeout, now));
    Noted(Note(t, Signals(s.pid, SIGINT, Timeout, now)), Signals(s.pid, SIGQUIT, Timeout, now));
    Noted(s, Signals(s.pid, SIGKILL, Timeout, now));
  }

  /** The write is refused for good, or takes nothing. */
  predicate Refuses(write: WriteAnswer) {
    write.WriteError? || (write.Takes? && write.n == 0)
  }

  lemma WriteBook(s: State, write: WriteAnswer)
    ensures var b, t := Book(s.log), AfterWrite(s, write);
      var n := if write.Takes? then (if write.n >= |s.stdinData| then |s.stdinData| else write.n) else 0;
      && Book(t.log) == (if Refuses(write) then b.(lost := b.lost + s.stdinData) else b.(sent := b.sent + s.stdinData[..n]))
      && t.stdinData == if Refuses(write) then "" else s.stdinData[n..]
  {
    hide Book;
    var data := s.stdinData;
    if data == "" {
      assert Book(s.log).sent + "" == Book(s.log).sent && Book(s.log).lost + "" == Book(s.log).lost;
    } else if Refuses(write) {
      Noted(s, Drops(data));
    } else if write.Takes? {
      Noted(s, Accepts(data));
      Noted(s, Accepts(data[..if write.n >= |data| then |data| else write.n]));
    }
  }

  predicate SameLife(s: State, t: State) {
    t.pid == s.pid && t.terminated == s.terminated && t.exitCode == s.exitCode
  }

  /** How often this object has closed, or still holds, the descriptor f. */
  function Uses(s: State, f: nat): nat {
    Book(s.log).closed[f] + Count(s.ifd == f) + Count(s.ofd == f) + Count(s.efd == f)
  }

  /** Pipes may have been read and closed, and nothing else. */
  predicate Drained(s: State, t: State, f: nat) {
    && Same(Book(s.log), Book(t.log)) && Uses(t, f) == Uses(s, f)
    && t.stdinData == s.stdinData && t.wasTimeout == s.wasTimeout && SameLife(s, t)
  }

  /** Equal books, the closed descriptors apart. */
  predicate Same(b: Ledger, d: Ledger) {
    && b.sent == d.sent && b.lost == d.lost && b.interrupts == d.interrupts && b.quits == d.quits
    && b.forced == d.forced && b.signals == d.signals
  }

  lemma Shuts(b: Ledger, fd: int, f: nat)
    ensures Same(b, Shut(b, fd)) && Shut(b, fd).closed[f] == b.closed[f] + Count(fd == f)
  {
  }

  lemma CloseInDrained(s: State, f: nat)
    ensures Drained(s, ClosedIn(s), f) && ClosedIn(s).ifd < 0
  {
    hide Book, Shut;
    Closed(s, s.ifd);
    Shuts(Book(s.log), s.ifd, f);
  }

  lemma OutDrained(s: State, k: Kernel, f: nat)
    ensures Drained(s, AfterOut(s, k), f) && AfterOut(s, k).ifd == s.ifd
  {
    hide Book, Concat, Shut;
    var t := s.(stdoutData := s.stdoutData + Concat(k.out.chunks));
    Closed(t, t.ofd);
    Shuts(Book(s.log), t.ofd, f);
  }

  lemma ErrDrained(s: State, k: Kernel, f: nat)
    ensures Drained(s, AfterErr(s, k), f) && AfterErr(s, k).ifd == s.ifd
  {
    hide Book, Concat, Shut;
    var t := s.(stderrData := s.stderrData + Concat(k.err.chunks));
    Closed(t, t.efd);
    Shuts(Book(s.log), t.efd, f);
  }

  /** The number of bytes one write takes from the waiting ones. */
  function Taken(s: State, write: WriteAnswer): (n: nat)
    ensures n <= |s.stdinData|
  {
    if s.ifd < 0 || !write.Takes? then 0 else if write.n >= |s.stdinData| then |s.stdinData| else write.n
  }

  predicate Loses(s: State, write: WriteAnswer) {
    s.ifd >= 0 && s.stdinData != "" && Refuses(write)
  }

  /** Input moves from waiting to sent, or is lost as a whole; no descriptor is forgotten. */
  lemma FeedBook(c: Config, s: State, write: WriteAnswer, f: nat)
    ensures var t := AfterFeed(c, s, write);
      var b, d, n := Book(s.log), Book(t.log), Taken(s, write);
      && d.sent == b.sent + s.stdinData[..n]
      && (if Loses(s, write) then d.lost == b.lost + s.stdinData && t.stdinData == "" && n == 0
          else d.lost == b.lost && t.stdinData == s.stdinData[n..])
      && d.interrupts == b.interrupts && d.quits == b.quits && d.forced == b.forced && d.signals == b.signals
      && Uses(t, f) == Uses(s, f)
      && t.wasTimeout == s.wasTimeout && SameLife(s, t)
  {
    hide Book, AfterWrite, ClosedIn;
    if s.ifd >= 0 {
      var w := AfterWrite(s, write);
      WriteBook(s, write);
      Writes(s, write);
      CloseInDrained(w, f);
      assert Book(s.log).lost + "" == Book(s.log).lost;
      assert s.stdinData[..0] == "" && Book(s.log).sent + "" == Book(s.log).sent;
    }
  }

  lemma Writes(s: State, write: WriteAnswer)
    ensures var t := AfterWrite(s, write);
      && t.ifd == s.ifd && t.ofd == s.ofd && t.efd == s.efd
      && t.wasTimeout == s.wasTimeout && SameLife(s, t)
      && Book(t.log).closed == Book(s.log).closed
      && Book(t.log).(sent := "", lost := "") == Book(s.log).(sent := "", lost := "")
  {
    WriteBook(s, write);
  }

  lemma TimeoutKeeps(c: Config, s: State, now: int, f: nat)
    ensures var t := AfterTimeout(c, s, now);
      && t.ifd == s.ifd && Uses(t, f) == Uses(s, f) && t.stdinData == s.stdinData
      && t.wasTimeout == (s.wasTimeout || Warns(c, s, now)) && SameLife(s, t)
  {
    TimeoutBook(c, s, now);
  }

  /** One step on the books. */
  ghost predicate Moves(c: Config, s: State, t: State, k: Kernel, f: nat) {
    var b, d, n, warns, forces := Book(s.log), Book(t.log), Taken(s, k.write), Warns(c, s, k.now), Forces(c, s, k.now);
    && d.sent == b.sent + s.stdinData[..n]
    && (if Loses(s, k.write) then d.lost == b.lost + s.stdinData && t.stdinData == "" && n == 0
        else d.lost == b.lost && t.stdinData == s.stdinData[n..])
    && d.interrupts == b.interrupts + Count(warns) && d.quits == b.quits + Count(warns)
    && d.forced == b.forced + Count(forces)
    && d.signals == b.signals + 2 * Count(warns) + Count(forces)
    && Uses(t, f) == Uses(s, f) && t.wasTimeout == (s.wasTimeout || warns)
  }

  predicate Reaps(s: State, k: Kernel) {
    s.pid >= 0 && (k.wait.Exited? || k.wait.NoChild?)
  }

  lemma StepBook(c: Config, s: State, k: Kernel, f: nat)
    ensures Moves(c, s, Step(c, s, k), k, f)
    ensures Step(c, s, k).terminated == (s.terminated || s.pid < 0)
    ensures Step(c, s, k).exitCode == if Reaps(s, k) then ExitStatus(k.wait) else s.exitCode
    ensures Step(c, s, k).pid == if Reaps(s, k) then -1 else s.pid
  {
    hide Book, AfterTimeout, AfterFeed, AfterOut, AfterErr, Warns, Forces, Count;
    TimeoutBook(c, s, k.now);
    TimeoutKeeps(c, s, k.now, f);
    var s1 := AfterTimeout(c, s, k.now);
    FeedBook(c, s1, k.write, f);
    var s2 := AfterFeed(c, s1, k.write);
    OutDrained(s2, k, f);
    ErrDrained(AfterOut(s2, k), k, f);
  }

  /** Signals on request and closed pipes: no input moves and nothing counts as a timeout. */
  ghost predicate Hushed(s: State, t: State, f: nat) {
    var b, d := Book(s.log), Book(t.log);
    && d.sent == b.sent && d.lost == b.lost && t.stdinData == s.stdinData
    && d.interrupts == b.interrupts && d.quits == b.quits && d.forced == b.forced
    && Uses(t, f) == Uses(s, f) && t.wasTimeout == s.wasTimeout && t.terminated == s.terminated
  }

  lemma SignalHushed(s: State, dash9: bool, now: int, f: nat)
    ensures var t := AfterSignal(s, dash9, now);
      Hushed(s, t, f) && t.pid == s.pid && t.ifd == s.ifd && t.ofd == s.ofd && t.efd == s.efd
  {
    hide Book;
    Noted(s, Signals(s.pid, SIGKILL, KillCall, now));
    Noted(s, Signals(s.pid, SIGINT, KillCall, now));
    Noted(Note(s, Signals(s.pid, SIGINT, KillCall, now)), Signals(s.pid, SIGQUIT, KillCall, now));
  }

  lemma CloseHushed(s: State, polite: WaitAnswer, now: int, f: nat)
    ensures var t := AfterClose(s, polite, now); Hushed(s, t, f) && t.ifd < 0
  {
    hide Book, Shut, Close;
    var s1, s2, s3 := Close(s, s.ifd), Close(Close(s, s.ifd), s.ofd), Close(Close(Close(s, s.ifd), s.ofd), s.efd);
    Closes3(s);
    Closed(s, s.ifd);
    Shuts(Book(s.log), s.ifd, f);
    Closed(s1, s.ofd);
    Shuts(Book(s1.log), s.ofd, f);
    Closed(s2, s.efd);
    Shuts(Book(s2.log), s.efd, f);
    var t := s3.(ifd := -1, ofd := -1, efd := -1);
    assert Hushed(s, t, f);
    Noted(t, Signals(s.pid, SIGTERM, KillCall, now));
    Noted(Note(t, Signals(s.pid, SIGTERM, KillCall, now)), Signals(s.pid, SIGKILL, KillCall, now));
  }

  lemma Closes3(s: State)
    ensures var t := Close(Close(Close(s, s.ifd), s.ofd), s.efd); t.(log := s.log) == s
  {
  }

  /** What every event keeps: all input is accounted for, and so are the descriptors and the warnings. */
  ghost predicate Kept(s: State, supplied: string, f: nat, uses: nat) {
    var b := Book(s.log);
    && b.sent + b.lost + s.stdinData == supplied && (b.lost != "" ==> s.stdinData == "")
    && Uses(s, f) == uses
    && b.interrupts == b.quits == Count(s.wasTimeout) && (b.forced > 0 ==> s.wasTimeout)
    && (s.terminated ==> s.pid < 0)
  }

  lemma StepKeeps(c: Config, s: State, k: Kernel, supplied: string, f: nat, uses: nat)
    requires Kept(s, supplied, f, uses)
    ensures Kept(Step(c, s, k), supplied, f, uses)
  {
    hide Book, Step, Uses;
    StepBook(c, s, k, f);
    var b, n := Book(s.log), Taken(s, k.write);
    Shift(b.sent, s.stdinData, n);
  }

  lemma Shift(a: string, d: string, n: nat)
    requires n <= |d|
    ensures (a + d[..n]) + "" + d[n..] == a + "" + d
    ensures (a + d[..0]) + ("" + d) + "" == a + "" + d
    ensures d[..0] == ""
  {
    assert d == d[..n] + d[n..];
  }

  lemma HandleKeeps(c: Config, s: State, e: Event, supplied: string, f: nat, uses: nat)
    requires Kept(s, supplied, f, uses)
    ensures Kept(Handle(c, s, e), supplied, f, uses)
  {
    hide Book, Step, AfterSignal, AfterClose;
    match e
    case TakesOutput =>
    case Updates(k) => StepKeeps(c, s, k, supplied, f, uses);
    case Kills(dash9, polite, k) =>
      if s.pid >= 0 {
        var t := AfterSignal(s, dash9, k.now);
        SignalHushed(s, dash9, k.now, f);
        CloseHushed(t, polite, k.now, f);
        StepKeeps(c, AfterClose(t, polite, k.now), k, supplied, f, uses);
      }
  }

  lemma {:induction false} RunKeeps(c: Config, s: State, events: seq<Event>, supplied: string, f: nat, uses: nat)
    requires Kept(s, supplied, f, uses)
    ensures Kept(Run(c, s, events), supplied, f, uses)
  {
    hide Kept, Handle;
    if events != [] {
      RunKeeps(c, s, events[..|events| - 1], supplied, f, uses);
      HandleKeeps(c, Run(c, s, events[..|events| - 1]), events[|events| - 1], supplied, f, uses);
    }
  }

  // ---------- Over every run ----------

  predicate Fresh(s: State) {
    s.log == [] && !s.wasTimeout && !s.terminated
  }

  lemma FreshKept(s: State, f: nat)
    requires Fresh(s)
    ensures Kept(s, s.stdinData, f, Count(s.ifd == f) + Count(s.ofd == f) + Count(s.efd == f))
  {
  }

  /** What the child accepted, what was lost, and what still waits are the supplied bytes, in this order. */
  lemma InputConserved(c: Config, s: State, events: seq<Event>)
    requires Fresh(s)
    ensures var t := Run(c, s, events);
      && Book(t.log).sent + Book(t.log).lost + t.stdinData == s.stdinData
      && (Book(t.log).lost != "" ==> t.stdinData == "")
  {
    FreshKept(s, 0);
    hide Run, Book;
    RunKeeps(c, s, events, s.stdinData, 0, Count(s.ifd == 0) + Count(s.ofd == 0) + Count(s.efd == 0));
  }

  /** Event i writes waiting input and the write is refused. */
  predicate LosesAt(c: Config, s: State, events: seq<Event>, i: nat)
    requires i < |events|
  {
    events[i].Updates? && Loses(Run(c, s, events[..i]), events[i].k.write)
  }

  lemma HandleLoss(c: Config, s: State, e: Event)
    ensures Book(Handle(c, s, e).log).lost != "" <==>
      Book(s.log).lost != "" || (e.Updates? && Loses(s, e.k.write))
  {
    hide Book, Step, AfterSignal, AfterClose;
    match e
    case TakesOutput =>
    case Updates(k) => StepBook(c, s, k, 0);
    case Kills(dash9, polite, k) =>
      if s.pid >= 0 {
        var t := AfterSignal(s, dash9, k.now);
        SignalHushed(s, dash9, k.now, 0);
        CloseHushed(t, polite, k.now, 0);
        StepBook(c, AfterClose(t, polite, k.now), k, 0);
      }
  }

  /** Input is lost if and only if the kernel refuses a write of waiting input. */
  lemma {:induction false} LostExactly(c: Config, s: State, events: seq<Event>)
    requires Book(s.log).lost == ""
    ensures Book(Run(c, s, events).log).lost != "" <==> exists i: nat :: i < |events| && LosesAt(c, s, events, i)
  {
    hide Book, Handle, Loses;
    if events != [] {
      var n := |events| - 1;
      var prev := events[..n];
      LostExactly(c, s, prev);
      HandleLoss(c, Run(c, s, prev), events[n]);
      forall i: nat | i < n
        ensures LosesAt(c, s, prev, i) == LosesAt(c, s, events, i)
      {
        assert prev[..i] == events[..i];
      }
      assert LosesAt(c, s, events, n) == (events[n].Updates? && Loses(Run(c, s, prev), events[n].k.write));
    }
  }

  /** No descriptor is closed twice, and no descriptor that was not given to the object is closed. */
  lemma ClosedAtMostOnce(c: Config, s: State, events: seq<Event>, f: nat)
    requires Fresh(s)
    requires s.ifd == f ==> s.ofd != f && s.efd != f
    requires s.ofd == f ==> s.efd != f
    ensures var t := Run(c, s, events);
      var closed := Book(t.log).closed[f];
      && closed <= 1
      && (f == t.ifd || f == t.ofd || f == t.efd ==> closed == 0)
      && (f != s.ifd && f != s.ofd && f != s.efd ==> closed == 0)
  {
    FreshKept(s, f);
    hide Run, Book;
    RunKeeps(c, s, events, s.stdinData, f, Count(s.ifd == f) + Count(s.ofd == f) + Count(s.efd == f));
  }

  /**
   * When the timeout kills the child in some step, then it had interrupted it exactly once, in an earlier
   * step, and the timeout is over by more than 2500 ms; and it never signals a child that was reaped.
   */
  lemma KillAfterWarning(c: Config, s: State, events: seq<Event>, k: Kernel)
    requires Fresh(s)
    ensures var t := Run(c, s, events);
      var u := Step(c, t, k);
      && Book(u.log).interrupts <= 1 && Book(u.log).quits <= 1
      && (Book(u.log).forced > Book(t.log).forced ==>
            && Book(t.log).interrupts == Book(t.log).quits == 1
            && Book(u.log).interrupts == 1
            && c.timeoutMs > 1 && k.now - c.startTime > c.timeoutMs + 2500)
      && (Book(u.log).interrupts > Book(t.log).interrupts ==>
            c.timeoutMs > 1 && k.now - c.startTime > c.timeoutMs)
      && (t.pid < 0 ==> Book(u.log).signals == Book(t.log).signals)
  {
    FreshKept(s, 0);
    hide Run, Book, Step;
    var uses := Count(s.ifd == 0) + Count(s.ofd == 0) + Count(s.efd == 0);
    RunKeeps(c, s, events, s.stdinData, 0, uses);
    StepBook(c, Run(c, s, events), k, 0);
    StepKeeps(c, Run(c, s, events), k, s.stdinData, 0, uses);
  }

  /** A reaped child stays reaped: no more signals, the same exit code; and a process never runs again. */
  lemma {:induction false} NeverRunsAgain(c: Config, s: State, events: seq<Event>)
    requires s.pid < 0
    ensures var t := Run(c, s, events);
      && t.pid < 0 && t.exitCode == s.exitCode && t.wasTimeout == s.wasTimeout
      && Book(t.log).signals == Book(s.log).signals
      && (s.terminated ==> t.terminated)
  {
    hide Book, Step;
    if events != [] {
      var n := |events| - 1;
      NeverRunsAgain(c, s, events[..n]);
      var t := Run(c, s, events[..n]);
      match events[n]
      case TakesOutput =>
      case Kills(_, _, _) =>
      case Updates(k) =>
        StepBook(c, t, k, 0);
    }
  }

  /** The exit code that callers see. */
  function ExitCode(s: State): int {
    if s.wasTimeout then -1 else s.exitCode
  }

  /** The code the kernel reports when the child is reaped is the final one, unless the timeout had struck. */
  lemma ExitReported(c: Config, s: State, k: Kernel, events: seq<Event>)
    requires Reaps(s, k)
    ensures ExitCode(Run(c, Step(c, s, k), events)) ==
      if s.wasTimeout || Warns(c, s, k.now) then -1 else ExitStatus(k.wait)
  {
    hide Step, Run, Warns, ExitStatus;
    StepBook(c, s, k, 0);
    NeverRunsAgain(c, Step(c, s, k), events);
  }

  /** A child that exits with a code from 0 to 255 has that code from then on, whatever the low byte says. */
  lemma ExitCodeKept(c: Config, s: State, k: Kernel, events: seq<Event>, code: nat, low: nat)
    requires s.pid >= 0 && code < 256 && low < 256 && k.wait == Exited(256 * code + low)
    requires !Step(c, s, k).wasTimeout
    ensures ExitCode(Run(c, Step(c, s, k), events)) == code
  {
    hide Step, Run, Book, ExitCode, Moves, Warns;
    ModUnique(256 * code + low, code, low);
    StepBook(c, s, k, 0);
    TimeoutOfStep(c, s, k);
    ExitReported(c, s, k, events);
  }

  lemma TimeoutOfStep(c: Config, s: State, k: Kernel)
    ensures Step(c, s, k).wasTimeout == (s.wasTimeout || Warns(c, s, k.now))
  {
    StepBook(c, s, k, 0);
    hide Step, Book, Warns;
  }

  lemma ModUnique(n: nat, code: nat, low: nat)
    requires n == 256 * code + low && code < 256 && low < 256
    ensures n / 256 % 256 == code
  {
  }

  /** A child of which the system knows nothing has 0, and a child whose time was over has -1. */
  lemma NoCodeKept(c: Config, s: State, k: Kernel, events: seq<Event>)
    requires s.pid >= 0
    ensures k.wait.NoChild? && !Step(c, s, k).wasTimeout ==> ExitCode(Run(c, Step(c, s, k), events)) == 0
    ensures (k.wait.NoChild? || k.wait.Exited?) && Step(c, s, k).wasTimeout ==>
      ExitCode(Run(c, Step(c, s, k), events)) == -1
  {
    StepBook(c, s, k, 0);
    hide Step, Run, Book;
    if k.wait.NoChild? || k.wait.Exited? {
      ExitReported(c, s, k, events);
    }
  }

  // ---------- What one step and one kill call ----------

  function ClosesOf(fd: int): seq<Call> {
    if fd >= 0 then [Closes(fd)] else []
  }

  /** The signals of the timeout: a warning by two of them, and the kill 2500 ms later. */
  function TimeoutCalls(c: Config, s: State, now: int): seq<Call> {
    if c.timeoutMs <= 1 || s.pid <= 0 || now <= c.startTime + c.timeoutMs then []
    else if !s.wasTimeout then [Signals(s.pid, SIGINT, Timeout, now), Signals(s.pid, SIGQUIT, Timeout, now)]
    else if now > c.startTime + c.timeoutMs + 2500 then [Signals(s.pid, SIGKILL, Timeout, now)]
    else []
  }

  lemma TimeoutCallsExactly(c: Config, s: State, now: int)
    ensures AfterTimeout(c, s, now).log == s.log + TimeoutCalls(c, s, now)
    ensures AfterTimeout(c, s, now).wasTimeout == (s.wasTimeout || TimeoutCalls(c, s, now) != [])
  {
  }

  lemma FeedMoves(c: Config, s: State, write: WriteAnswer)
    ensures AfterFeed(c, s, write).stdinData ==
      if s.ifd < 0 || write.WriteBlocked? then s.stdinData
      else if write.Takes? && 0 < write.n < |s.stdinData| then s.stdinData[write.n..]
      else ""
  {
  }

  /**
   * What stays of the waiting input: all of it when the pipe is closed, busy or interrupted, what a write left
   * over, and nothing after any other write.
   */
  lemma InputMovesExactly(c: Config, s: State, k: Kernel)
    ensures Step(c, s, k).stdinData ==
      if s.ifd < 0 || k.write.WriteBlocked? then s.stdinData
      else if k.write.Takes? && 0 < k.write.n < |s.stdinData| then s.stdinData[k.write.n..]
      else ""
  {
    TimeoutKeeps(c, s, k.now, 0);
    hide Book, AfterTimeout, AfterFeed, AfterOut, AfterErr, AfterWait;
    FeedMoves(c, AfterTimeout(c, s, k.now), k.write);
    LaterStagesKeepInput(AfterFeed(c, AfterTimeout(c, s, k.now), k.write), k);
  }

  /** Nothing but an exit or an unknown child ends the waiting for it. */
  lemma NotReaped(c: Config, s: State, k: Kernel)
    requires s.pid >= 0 && !k.wait.Exited? && !k.wait.NoChild?
    ensures var t := Step(c, s, k);
      t.pid == s.pid && t.exitCode == s.exitCode && t.terminated == s.terminated
  {
    StepBook(c, s, k, 0);
  }

  lemma FeedCloses(c: Config, s: State, write: WriteAnswer)
    ensures var t := AfterFeed(c, s, write);
      && (s.ifd >= 0 ==> t.ifd == if t.stdinData == "" && !c.noAutoClose then -1 else s.ifd)
      && (s.ifd < 0 ==> t.ifd == s.ifd && t.stdinData == s.stdinData)
  {
    hide Book;
    Writes(s, write);
    hide AfterWrite;
  }

  lemma LaterStagesKeepInput(s: State, k: Kernel)
    ensures var t := AfterWait(AfterErr(AfterOut(s, k), k), k.wait); t.ifd == s.ifd && t.stdinData == s.stdinData
  {
    hide Book, AfterOut, AfterErr;
    OutDrained(s, k, 0);
    ErrDrained(AfterOut(s, k), k, 0);
  }

  /** Standard input is closed in the step that leaves nothing to write, unless it is kept open. */
  lemma InputClosedExactly(c: Config, s: State, k: Kernel)
    ensures s.ifd >= 0 ==> Step(c, s, k).ifd == if Step(c, s, k).stdinData == "" && !c.noAutoClose then -1 else s.ifd
    ensures s.ifd < 0 ==> Step(c, s, k).ifd == s.ifd && Step(c, s, k).stdinData == s.stdinData
  {
    TimeoutKeeps(c, s, k.now, 0);
    hide Book, AfterTimeout, AfterFeed, AfterOut, AfterErr, AfterWait;
    FeedCloses(c, AfterTimeout(c, s, k.now), k.write);
    LaterStagesKeepInput(AfterFeed(c, AfterTimeout(c, s, k.now), k.write), k);
  }

  /** The output side of a state. */
  predicate SameOutputs(s: State, t: State) {
    t.ofd == s.ofd && t.efd == s.efd && t.stdoutData == s.stdoutData && t.stderrData == s.stderrData
    && t.terminated == s.terminated
  }

  lemma EarlierStagesKeepOutputs(c: Config, s: State, k: Kernel)
    ensures SameOutputs(s, AfterFeed(c, AfterTimeout(c, s, k.now), k.write))
  {
    var s1 := AfterTimeout(c, s, k.now);
    assert SameOutputs(s, s1);
    FeedKeepsOutputs(c, s1, k.write);
    hide AfterTimeout, AfterFeed;
  }

  lemma OutRead(s: State, k: Kernel)
    ensures var t := AfterOut(s, k);
      var isRead := s.ofd >= 0 && (k.outReady || k.pollFailed || s.terminated);
      && t.stdoutData == s.stdoutData + (if isRead then Concat(k.out.chunks) else "")
      && t.ofd == (if isRead && (k.out.last == EndOfFile || k.out.last == ReadError) then -1 else s.ofd)
      && t.efd == s.efd && t.stderrData == s.stderrData && t.terminated == s.terminated
  {
    hide Concat;
    assert s.stdoutData + "" == s.stdoutData;
  }

  lemma ErrRead(s: State, k: Kernel)
    ensures var t := AfterErr(s, k);
      var isRead := s.efd >= 0 && (k.errReady || k.pollFailed || s.terminated);
      && t.stderrData == s.stderrData + (if isRead then Concat(k.err.chunks) else "")
      && t.efd == (if isRead && (k.err.last == EndOfFile || k.err.last == ReadError) then -1 else s.efd)
      && t.ofd == s.ofd && t.stdoutData == s.stdoutData
  {
    hide Concat;
    assert s.stderrData + "" == s.stderrData;
  }

  lemma WaitKeepsOutputs(s: State, wait: WaitAnswer)
    ensures var t := AfterWait(s, wait);
      t.ofd == s.ofd && t.efd == s.efd && t.stdoutData == s.stdoutData && t.stderrData == s.stderrData
  {
  }

  /** An output is read when it is ready, poll failed, or the process has ended, and closed at its end or by an error. */
  lemma OutputReadExactly(c: Config, s: State, k: Kernel)
    ensures var t := Step(c, s, k);
      var isRead := s.ofd >= 0 && (k.outReady || k.pollFailed || s.terminated);
      && t.stdoutData == s.stdoutData + (if isRead then Concat(k.out.chunks) else "")
      && t.ofd == if isRead && (k.out.last == EndOfFile || k.out.last == ReadError) then -1 else s.ofd
    ensures var t := Step(c, s, k);
      var isRead := s.efd >= 0 && (k.errReady || k.pollFailed || s.terminated);
      && t.stderrData == s.stderrData + (if isRead then Concat(k.err.chunks) else "")
      && t.efd == if isRead && (k.err.last == EndOfFile || k.err.last == ReadError) then -1 else s.efd
  {
    hide AfterTimeout, AfterFeed, AfterOut, AfterErr, AfterWait, Concat;
    EarlierStagesKeepOutputs(c, s, k);
    var s2 := AfterFeed(c, AfterTimeout(c, s, k.now), k.write);
    OutRead(s2, k);
    ErrRead(AfterOut(s2, k), k);
    WaitKeepsOutputs(AfterErr(AfterOut(s2, k), k), k.wait);
  }

  lemma FeedKeepsOutputs(c: Config, s: State, write: WriteAnswer)
    ensures SameOutputs(s, AfterFeed(c, s, write))
  {
    hide Book;
    Writes(s, write);
  }

  /**
   * Killing a running child: its signals, all open pipes closed, SIGTERM, and SIGKILL when the child is
   * still there; no input or output moves, and the exit code is -1.
   */
  lemma KillCallsExactly(c: Config, s: State, dash9: bool, polite: WaitAnswer, k: Kernel)
    requires s.pid > 0
    ensures var t, p := Killed(c, s, dash9, polite, k), s.pid;
      && t.log == s.log
          + (if dash9 then [Signals(p, SIGKILL, KillCall, k.now)]
             else [Signals(p, SIGINT, KillCall, k.now), Signals(p, SIGQUIT, KillCall, k.now)])
          + ClosesOf(s.ifd) + ClosesOf(s.ofd) + ClosesOf(s.efd) + [Signals(p, SIGTERM, KillCall, k.now)]
          + (if polite.StillRunning? || polite.NoChild? then [Signals(p, SIGKILL, KillCall, k.now)] else [])
          + TimeoutCalls(c, s, k.now)
      && t.ifd == t.ofd == t.efd == -1 && t.exitCode == -1
      && t.stdinData == s.stdinData && t.stdoutData == s.stdoutData && t.stderrData == s.stderrData
  {
    hide AfterClose, AfterSignal, TimeoutCalls;
    var u := AfterClose(AfterSignal(s, dash9, k.now), polite, k.now);
    KillCloses(s, dash9, polite, k.now);
    ClosedStep(c, u, k);
    SameTimeout(c, s, u, k.now);
  }

  lemma SameTimeout(c: Config, s: State, u: State, now: int)
    requires u.pid == s.pid && u.wasTimeout == s.wasTimeout
    ensures TimeoutCalls(c, u, now) == TimeoutCalls(c, s, now)
  {
  }

  /** With all pipes closed a step makes the calls of the timeout only. */
  lemma ClosedStep(c: Config, s: State, k: Kernel)
    requires s.ifd == s.ofd == s.efd == -1
    ensures var t := Step(c, s, k);
      && t.log == s.log + TimeoutCalls(c, s, k.now) && t.ifd == t.ofd == t.efd == -1
      && t.stdinData == s.stdinData && t.stdoutData == s.stdoutData && t.stderrData == s.stderrData
  {
    TimeoutCallsExactly(c, s, k.now);
    var v := AfterTimeout(c, s, k.now);
    assert v == s.(log := v.log, wasTimeout := v.wasTimeout);
    hide AfterTimeout, TimeoutCalls;
    assert AfterErr(AfterOut(AfterFeed(c, v, k.write), k), k) == v;
  }

  lemma CloseCalls(s: State, fd: int)
    ensures Close(s, fd).log == s.log + ClosesOf(fd) && Close(s, fd) == s.(log := Close(s, fd).log)
  {
    assert s.log + [] == s.log;
  }

  lemma SignalCalls(s: State, dash9: bool, now: int)
    ensures AfterSignal(s, dash9, now) == s.(log := s.log +
      if dash9 then [Signals(s.pid, SIGKILL, KillCall, now)]
      else [Signals(s.pid, SIGINT, KillCall, now), Signals(s.pid, SIGQUIT, KillCall, now)])
  {
  }

  lemma CloseAllCalls(s: State, polite: WaitAnswer, now: int)
    requires s.pid > 0
    ensures var u := AfterClose(s, polite, now);
      && u.log == s.log + ClosesOf(s.ifd) + ClosesOf(s.ofd) + ClosesOf(s.efd) + [Signals(s.pid, SIGTERM, KillCall, now)]
          + (if polite.StillRunning? || polite.NoChild? then [Signals(s.pid, SIGKILL, KillCall, now)] else [])
      && u == s.(log := u.log, ifd := -1, ofd := -1, efd := -1)
  {
    hide Close, ClosesOf;
    CloseCalls(s, s.ifd);
    CloseCalls(Close(s, s.ifd), s.ofd);
    CloseCalls(Close(Close(s, s.ifd), s.ofd), s.efd);
  }

  /** Without a child nothing is signalled: closing closes the pipes, and killing a reaped child does nothing. */
  lemma NothingToKill(c: Config, s: State, dash9: bool, polite: WaitAnswer, k: Kernel)
    ensures s.pid <= 0 ==>
      AfterClose(s, polite, k.now) == s.(pid := -1, ifd := -1, ofd := -1, efd := -1,
        log := s.log + ClosesOf(s.ifd) + ClosesOf(s.ofd) + ClosesOf(s.efd))
    ensures s.pid < 0 ==> Killed(c, s, dash9, polite, k) == s
  {
    hide Close, ClosesOf, Step, AfterSignal;
    CloseCalls(s, s.ifd);
    CloseCalls(Close(s, s.ifd), s.ofd);
    CloseCalls(Close(Close(s, s.ifd), s.ofd), s.efd);
  }

  lemma KillCloses(s: State, dash9: bool, polite: WaitAnswer, now: int)
    requires s.pid > 0
    ensures var u, p := AfterClose(AfterSignal(s, dash9, now), polite, now), s.pid;
      && u.log == s.log
          + (if dash9 then [Signals(p, SIGKILL, KillCall, now)]
             else [Signals(p, SIGINT, KillCall, now), Signals(p, SIGQUIT, KillCall, now)])
          + ClosesOf(s.ifd) + ClosesOf(s.ofd) + ClosesOf(s.efd) + [Signals(p, SIGTERM, KillCall, now)]
          + (if polite.StillRunning? || polite.NoChild? then [Signals(p, SIGKILL, KillCall, now)] else [])
      && u == s.(log := u.log, ifd := -1, ofd := -1, efd := -1)
  {
    hide AfterSignal, AfterClose, ClosesOf;
    SignalCalls(s, dash9, now);
    CloseAllCalls(AfterSignal(s, dash9, now), polite, now);
  }
}
