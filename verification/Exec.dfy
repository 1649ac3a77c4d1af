/**
 * The loop of the script function exec: one step of the child process, its output handed to the line
 * callbacks or collected, until the process has ended; and what the callbacks then have seen of the output.
 */
module Exec {
  import opened Common
  import ChildProcess
  import ChildOutput
  import LineCallback

  type Callback = seq<string> -> LineCallback.Answer

  /** One turn of the loop: what the child does before, the step, and the hand-over of the output. */
  datatype Turn = Turn(idle: ChildOutput.Activity, step: ChildOutput.WorldEvent)

  function Events(turn: Turn): seq<ChildOutput.WorldEvent> {
    [ChildOutput.ChildActs(turn.idle), turn.step, ChildOutput.TakingOutput]
  }

  function AllEvents(turns: seq<Turn>): seq<ChildOutput.WorldEvent> {
    if turns == [] then [] else AllEvents(turns[..|turns| - 1]) + Events(turns[|turns| - 1])
  }

  /** The world after these turns. */
  function After(c: ChildProcess.Config, w: ChildOutput.World, turns: seq<Turn>): ChildOutput.World {
    ChildOutput.RunWorld(c, w, AllEvents(turns))
  }

  /** The world before the step of a turn, and behind it. */
  function BeforeStep(c: ChildProcess.Config, w: ChildOutput.World, turns: seq<Turn>): ChildOutput.World
    requires turns != []
  {
    ChildOutput.Act(After(c, w, turns[..|turns| - 1]), turns[|turns| - 1].idle)
  }

  function AfterStep(c: ChildProcess.Config, w: ChildOutput.World, turns: seq<Turn>): ChildOutput.World
    requires turns != []
  {
    ChildOutput.Next(c, BeforeStep(c, w, turns), turns[|turns| - 1].step)
  }

  /** What the turns hand over of one of the two outputs. */
  function Chunks(c: ChildProcess.Config, w: ChildOutput.World, turns: seq<Turn>, err: bool): (r: seq<string>)
    ensures |r| == |turns|
  {
    if turns == [] then []
    else
      var s := AfterStep(c, w, turns).s;
      Chunks(c, w, turns[..|turns| - 1], err) + [if err then s.stderrData else s.stdoutData]
  }

  /** The turns of one call: only steps, the process runs until the last of them, and not behind it. */
  predicate Complete(c: ChildProcess.Config, w: ChildOutput.World, turns: seq<Turn>) {
    && turns != [] && (forall i :: 0 <= i < |turns| ==> turns[i].step.Updating?)
    && (forall i :: 0 < i < |turns| ==> !After(c, w, turns[..i]).s.terminated)
    && After(c, w, turns).s.terminated
  }

  /** Everything the child wrote to one of its outputs. */
  function Written(c: ChildProcess.Config, w: ChildOutput.World, turns: seq<Turn>, err: bool): string {
    var v := After(c, w, turns);
    if err then v.err.written else v.out.written
  }

  /** No signal cut the last reading of that output short. */
  predicate ReadToEnd(c: ChildProcess.Config, w: ChildOutput.World, turns: seq<Turn>, err: bool)
    requires turns != [] && turns[|turns| - 1].step.Updating?
  {
    var u, e := BeforeStep(c, w, turns), turns[|turns| - 1].step;
    if err then !ChildOutput.CutShort(ChildOutput.AtErr(c, u, e).err, e.k.err)
    else !ChildOutput.CutShort(ChildOutput.AtOut(c, u, e).out, e.k.out)
  }

  // ---------- The turns as a run ----------

  lemma RunMore(c: ChildProcess.Config, w: ChildOutput.World, events: seq<ChildOutput.WorldEvent>,
                e: ChildOutput.WorldEvent)
    ensures ChildOutput.RunWorld(c, w, events + [e]) == ChildOutput.Next(c, ChildOutput.RunWorld(c, w, events), e)
    ensures ChildOutput.HonestRun(c, w, events + [e]) <==>
      ChildOutput.HonestRun(c, w, events) && ChildOutput.Honest(c, ChildOutput.RunWorld(c, w, events), e)
  {
    assert (events + [e])[..|events|] == events;
    hide ChildOutput.Next, ChildOutput.Honest;
  }

  /** One turn more: the child, the step, the hand-over. */
  lemma OneTurn(c: ChildProcess.Config, w: ChildOutput.World, turns: seq<Turn>)
    requires turns != []
    ensures var front, turn := AllEvents(turns[..|turns| - 1]), turns[|turns| - 1];
      var before := front + [ChildOutput.ChildActs(turn.idle)];
      && ChildOutput.RunWorld(c, w, before) == BeforeStep(c, w, turns)
      && After(c, w, turns) == ChildOutput.Next(c, AfterStep(c, w, turns), ChildOutput.TakingOutput)
      && (ChildOutput.HonestRun(c, w, AllEvents(turns)) ==>
            ChildOutput.HonestRun(c, w, before) && ChildOutput.Honest(c, BeforeStep(c, w, turns), turn.step)
            && ChildOutput.HonestRun(c, w, front))
  {
    hide ChildOutput.HonestRun, ChildOutput.RunWorld, ChildOutput.Honest, ChildOutput.Act;
    var front, turn := AllEvents(turns[..|turns| - 1]), turns[|turns| - 1];
    var before := front + [ChildOutput.ChildActs(turn.idle)];
    RunMore(c, w, front, ChildOutput.ChildActs(turn.idle));
    RunMore(c, w, before, turn.step);
    RunMore(c, w, before + [turn.step], ChildOutput.TakingOutput);
    assert AllEvents(turns) == before + [turn.step] + [ChildOutput.TakingOutput];
  }

  lemma StepTakesNothing(c: ChildProcess.Config, w: ChildOutput.World, e: ChildOutput.WorldEvent)
    requires e.Updating?
    ensures ChildOutput.Next(c, w, e).out.taken == w.out.taken && ChildOutput.Next(c, w, e).err.taken == w.err.taken
  {
  }

  /** The chunks handed over are what was taken from the outputs. */
  lemma {:induction false} ChunksTaken(c: ChildProcess.Config, w: ChildOutput.World, turns: seq<Turn>)
    requires forall i :: 0 <= i < |turns| ==> turns[i].step.Updating?
    ensures After(c, w, turns).out.taken == w.out.taken + LineCallback.Stream(Chunks(c, w, turns, false))
    ensures After(c, w, turns).err.taken == w.err.taken + LineCallback.Stream(Chunks(c, w, turns, true))
  {
    hide After, AfterStep, Chunks, LineCallback.Stream;
    if turns == [] {
      NothingRun(c, w);
    } else {
      ChunksTaken(c, w, turns[..|turns| - 1]);
      TurnTakes(c, w, turns);
      ChunkAppended(c, w, turns, false);
      ChunkAppended(c, w, turns, true);
    }
  }

  /** A turn takes what its step leaves. */
  lemma TurnTakes(c: ChildProcess.Config, w: ChildOutput.World, turns: seq<Turn>)
    requires turns != [] && turns[|turns| - 1].step.Updating?
    ensures var u, v := After(c, w, turns[..|turns| - 1]), After(c, w, turns);
      && v.out.taken == u.out.taken + AfterStep(c, w, turns).s.stdoutData
      && v.err.taken == u.err.taken + AfterStep(c, w, turns).s.stderrData
  {
    hide ChildOutput.RunWorld, ChildOutput.AtWait, After;
    OneTurn(c, w, turns);
    StepTakesNothing(c, BeforeStep(c, w, turns), turns[|turns| - 1].step);
  }

  lemma NothingRun(c: ChildProcess.Config, w: ChildOutput.World)
    ensures After(c, w, []) == w && LineCallback.Stream([]) == ""
    ensures Chunks(c, w, [], false) == [] == Chunks(c, w, [], true)
    ensures w.out.taken + "" == w.out.taken && w.err.taken + "" == w.err.taken
  {
  }

  lemma ChunkAppended(c: ChildProcess.Config, w: ChildOutput.World, turns: seq<Turn>, err: bool)
    requires turns != []
    ensures var s := AfterStep(c, w, turns).s;
      LineCallback.Stream(Chunks(c, w, turns, err)) ==
        LineCallback.Stream(Chunks(c, w, turns[..|turns| - 1], err)) + if err then s.stderrData else s.stdoutData
  {
    hide AfterStep;
    var front, all := Chunks(c, w, turns[..|turns| - 1], err), Chunks(c, w, turns, err);
    assert all[..|front|] == front;
  }

  /**
   * The chunks handed over are together what the child wrote if and only if the last reading was not cut
   * short, for either output that is watched.
   */
  lemma OutputHandedOver(c: ChildProcess.Config, w: ChildOutput.World, turns: seq<Turn>, err: bool)
    requires ChildOutput.Started(w, !err, err) && Complete(c, w, turns)
    requires ChildOutput.HonestRun(c, w, AllEvents(turns))
    ensures LineCallback.Stream(Chunks(c, w, turns, err)) == Written(c, w, turns, err) <==> ReadToEnd(c, w, turns, err)
  {
    hide ChildOutput.HonestRun, ChildOutput.RunWorld, ChildOutput.Honest, ChildOutput.CutShort;
    hide ChildOutput.AtOut, ChildOutput.AtErr;
    var n := |turns| - 1;
    var front, turn := AllEvents(turns[..n]), turns[n];
    OneTurn(c, w, turns);
    ChunksTaken(c, w, turns);
    NotEnded(c, w, turns);
    hide ChildOutput.Act, Chunks, LineCallback.Stream, AllEvents, ChildOutput.AtWait;
    ChildOutput.NoOutputLost(c, w, front + [ChildOutput.ChildActs(turn.idle)], turn.step, !err, err);
  }

  lemma NotEnded(c: ChildProcess.Config, w: ChildOutput.World, turns: seq<Turn>)
    requires !w.s.terminated && Complete(c, w, turns)
    ensures !BeforeStep(c, w, turns).s.terminated && AfterStep(c, w, turns).s.terminated
  {
    hide ChildOutput.AtWait;
    OneTurn(c, w, turns);
    if |turns| == 1 {
      NothingRun(c, w);
      assert turns[..0] == [];
    }
    hide ChildOutput.RunWorld;
  }

  // ---------- Where the output goes ----------

  /** One output of the child: passed to a callback by lines, or collected. */
  class Sink {
    const callback: Option<Callback>
    const reader: LineCallback.Reader
    var text: string
    ghost var fed: seq<string>

    ghost predicate Valid()
      reads this, reader
    {
      && reader.Valid()
      && match callback
         case None => text == LineCallback.Stream(fed) && reader.buf == "" && reader.calls == []
         case Some(f) =>
           && reader.callback == f && text == ""
           && reader.calls == LineCallback.StripAll(LineCallback.Fed(fed).0) && reader.buf == LineCallback.Fed(fed).1
    }

    constructor (callback: Option<Callback>)
      ensures Valid() && fresh(reader) && fed == [] && this.callback == callback
    {
      this.callback, text, fed := callback, "", [];
      reader := new LineCallback.Reader(if callback.Some? then callback.value else (_ => LineCallback.Skips));
    }

    /** Takes what a step brought, if it brought something. */
    method Take(data: string)
      requires Valid()
      modifies this, reader
      ensures Valid() && fed == old(fed) + [data]
    {
      hide LineCallback.Pieces, LineCallback.Answers, LineCallback.StripAll;
      ghost var was := fed;
      fed := fed + [data];
      assert fed[..|was|] == was;
      if callback.Some? {
        var p := LineCallback.Pieces(reader.buf + data);
        LineCallback.StripAllAppend(LineCallback.Fed(was).0, p.0);
        if data != "" {
          reader.ReadCallback(data);
        } else {
          NothingMore(was, reader.buf);
        }
      } else {
        text := text + data;
      }
    }

    /** At the end a callback gets what is left in the buffer. */
    method Flush()
      requires Valid()
      modifies this, reader
      ensures Received(this, old(fed))
    {
      hide LineCallback.Answers, LineCallback.StripAll, LineCallback.FullLines, LineCallback.Tail;
      LineCallback.FedExact(fed);
      LineCallback.StripAllAppend(LineCallback.FullLines(LineCallback.Stream(fed)),
        if reader.buf == "" then [] else [reader.buf]);
      if reader.buf != "" {
        LastLine(reader.buf);
        reader.ReadCallback("");
      } else {
        NoLastLine();
      }
    }
  }

  lemma LastLine(line: string)
    ensures LineCallback.StripAll([line]) == [LineCallback.Strip(line)]
  {
  }

  lemma NoLastLine()
    ensures LineCallback.StripAll([]) == []
  {
  }

  lemma NothingMore(fed: seq<string>, buf: string)
    requires '\n' !in buf && buf == LineCallback.Fed(fed).1
    ensures LineCallback.Fed(fed + [""]) == LineCallback.Fed(fed)
  {
    assert (fed + [""])[..|fed|] == fed && buf + "" == buf;
    LineCallback.NoPiece(buf);
    assert LineCallback.Fed(fed).0 + [] == LineCallback.Fed(fed).0;
  }

  // ---------- The loop ----------

  /** What a sink has at the end, and what that says about the output when all of it was read. */
  ghost predicate Received(sink: Sink, chunks: seq<string>)
    reads sink, sink.reader
  {
    match sink.callback
    case None => sink.text == LineCallback.Stream(chunks)
    case Some(f) =>
      && sink.reader.out == LineCallback.Answers(f, sink.reader.calls)
      && (LineCallback.Harmless(chunks) ==>
            sink.reader.calls == LineCallback.StripAll(LineCallback.AllLines(LineCallback.Stream(chunks))))
  }

  /**
   * For a watched output of an honest run: the text collected is what the child wrote if and only if the last
   * reading was not cut short; and then a callback has seen its lines, stripped and in order, provided that
   * empty lines did no harm.
   */
  ghost predicate Delivered(sink: Sink, c: ChildProcess.Config, w: ChildOutput.World, turns: seq<Turn>, err: bool)
    requires Complete(c, w, turns)
    reads sink, sink.reader
  {
    var written := Written(c, w, turns, err);
    ChildOutput.Started(w, !err, err) && ChildOutput.HonestRun(c, w, AllEvents(turns)) ==>
      match sink.callback
      case None => sink.text == written <==> ReadToEnd(c, w, turns, err)
      case Some(_) =>
        ReadToEnd(c, w, turns, err)
        && (LineCallback.Harmless(Chunks(c, w, turns, err)) || LineCallback.NoEmptyLines(written)) ==>
          sink.reader.calls == LineCallback.StripAll(LineCallback.AllLines(written))
  }

  lemma ReceivedDelivers(sink: Sink, c: ChildProcess.Config, w: ChildOutput.World, turns: seq<Turn>, err: bool)
    requires Complete(c, w, turns) && Received(sink, Chunks(c, w, turns, err))
    ensures Delivered(sink, c, w, turns, err)
  {
    hide Chunks, Written, ReadToEnd, After, AllEvents, LineCallback.Stream, LineCallback.StripAll;
    hide LineCallback.AllLines, LineCallback.Harmless, LineCallback.NoEmptyLines, ChildOutput.HonestRun;
    if ChildOutput.Started(w, !err, err) && ChildOutput.HonestRun(c, w, AllEvents(turns)) {
      OutputHandedOver(c, w, turns, err);
      var written := Written(c, w, turns, err);
      if ReadToEnd(c, w, turns, err) && LineCallback.NoEmptyLines(written) {
        LineCallback.NoEmptyLinesHarmless(Chunks(c, w, turns, err));
      }
    }
  }

  /** The loop of exec, with a child that the turns describe. */
  method Execute(p: ChildProcess.Process, ghost w: ChildOutput.World, turns: seq<Turn>,
                 onOut: Option<Callback>, onErr: Option<Callback>)
    returns (out: Sink, err: Sink, exitCode: int)
    requires p.View() == w.s && Complete(p.config, w, turns)
    modifies p
    ensures p.View() == After(p.config, w, turns).s && exitCode == ChildProcess.ExitCode(p.View())
    ensures out.callback == onOut && Received(out, Chunks(p.config, w, turns, false))
    ensures err.callback == onErr && Received(err, Chunks(p.config, w, turns, true))
    ensures Delivered(out, p.config, w, turns, false) && Delivered(err, p.config, w, turns, true)
  {
    assert turns != [];
    hide Received, Delivered, After, Chunks, Complete;
    NothingRun(p.config, w);
    assert turns[..0] == [];
    out := new Sink(onOut);
    err := new Sink(onErr);
    var i, running := 0, true;
    while running
      invariant i <= |turns| && (if running then i < |turns| else i == |turns|)
      invariant p.View() == After(p.config, w, turns[..i]).s
      invariant out.Valid() && err.Valid() && Apart(out, err)
      invariant fresh({out, err} + {out.reader, err.reader})
      invariant out.fed == Chunks(p.config, w, turns[..i], false) && err.fed == Chunks(p.config, w, turns[..i], true)
      decreases |turns| - i
    {
      running := TakeTurn(p, w, turns, i, out, err);
      i := i + 1;
    }
    assert turns[..i] == turns;
    exitCode := if p.wasTimeout then -1 else p.exitCode;
    Finish(out, err);
    ReceivedDelivers(out, p.config, w, turns, false);
    ReceivedDelivers(err, p.config, w, turns, true);
  }

  predicate Apart(out: Sink, err: Sink) {
    out != err && out.reader != err.reader
  }

  /** What the step brought goes to the two sinks. */
  method HandOver(p: ChildProcess.Process, out: Sink, err: Sink)
    requires out.Valid() && err.Valid() && Apart(out, err)
    modifies p`stdoutData, p`stderrData, out, out.reader, err, err.reader
    ensures out.Valid() && out.fed == old(out.fed) + [old(p.stdoutData)]
    ensures err.Valid() && err.fed == old(err.fed) + [old(p.stderrData)]
    ensures p.View() == old(p.View()).(stdoutData := "", stderrData := "")
  {
    hide LineCallback.Fed, LineCallback.Stream, LineCallback.StripAll, LineCallback.Answers;
    out.Take(p.stdoutData);
    p.stdoutData := "";
    err.Take(p.stderrData);
    p.stderrData := "";
  }

  /** One turn of the loop. */
  method TakeTurn(p: ChildProcess.Process, ghost w: ChildOutput.World, turns: seq<Turn>, i: nat, out: Sink, err: Sink)
    returns (running: bool)
    requires Complete(p.config, w, turns) && i < |turns| && p.View() == After(p.config, w, turns[..i]).s
    requires out.Valid() && err.Valid() && Apart(out, err)
    requires out.fed == Chunks(p.config, w, turns[..i], false) && err.fed == Chunks(p.config, w, turns[..i], true)
    modifies p, out, out.reader, err, err.reader
    ensures p.View() == After(p.config, w, turns[..i + 1]).s && running == (i + 1 < |turns|)
    ensures out.Valid() && out.fed == Chunks(p.config, w, turns[..i + 1], false)
    ensures err.Valid() && err.fed == Chunks(p.config, w, turns[..i + 1], true)
  {
    hide Complete, After, Chunks, ChildProcess.Step, LineCallback.Fed, LineCallback.Stream, LineCallback.StripAll;
    TurnOfLoop(p.config, w, turns, i);
    running := p.Update(turns[i].step.k);
    HandOver(p, out, err);
  }

  method Finish(out: Sink, err: Sink)
    requires out.Valid() && err.Valid() && Apart(out, err)
    modifies out, out.reader, err, err.reader
    ensures Received(out, old(out.fed)) && Received(err, old(err.fed))
  {
    hide LineCallback.Fed, LineCallback.Stream, LineCallback.StripAll, LineCallback.Answers;
    hide LineCallback.AllLines, LineCallback.Harmless;
    out.Flush();
    err.Flush();
  }

  lemma TurnOfLoop(c: ChildProcess.Config, w: ChildOutput.World, turns: seq<Turn>, i: nat)
    requires Complete(c, w, turns) && i < |turns|
    ensures turns[i].step.Updating?
    ensures var s := ChildProcess.Step(c, After(c, w, turns[..i]).s, turns[i].step.k);
      && After(c, w, turns[..i + 1]).s == s.(stdoutData := "", stderrData := "")
      && Chunks(c, w, turns[..i + 1], false) == Chunks(c, w, turns[..i], false) + [s.stdoutData]
      && Chunks(c, w, turns[..i + 1], true) == Chunks(c, w, turns[..i], true) + [s.stderrData]
      && (i + 1 < |turns| <==> !s.terminated)
  {
    hide After, Chunks, ChildProcess.Step, Complete;
    EndsWithLast(c, w, turns, i);
    PrefixOfPrefix(turns, i);
    LastTurn(c, w, turns[..i + 1]);
  }

  lemma EndsWithLast(c: ChildProcess.Config, w: ChildOutput.World, turns: seq<Turn>, i: nat)
    requires Complete(c, w, turns) && i < |turns|
    ensures turns[i].step.Updating? && (i + 1 < |turns| <==> !After(c, w, turns[..i + 1]).s.terminated)
  {
    hide After;
    if i + 1 == |turns| {
      assert turns[..i + 1] == turns;
    }
  }

  lemma PrefixOfPrefix(turns: seq<Turn>, i: nat)
    requires i < |turns|
    ensures turns[..i + 1][..i] == turns[..i] && turns[..i + 1][i] == turns[i] && |turns[..i + 1]| == i + 1
  {
  }

  /** The process after the last turn. */
  lemma LastTurn(c: ChildProcess.Config, w: ChildOutput.World, turns: seq<Turn>)
    requires turns != [] && turns[|turns| - 1].step.Updating?
    ensures var front := turns[..|turns| - 1];
      var s := ChildProcess.Step(c, After(c, w, front).s, turns[|turns| - 1].step.k);
      && After(c, w, turns).s == s.(stdoutData := "", stderrData := "")
      && Chunks(c, w, turns, false) == Chunks(c, w, front, false) + [s.stdoutData]
      && Chunks(c, w, turns, true) == Chunks(c, w, front, true) + [s.stderrData]
  {
    hide ChildOutput.RunWorld, After, ChildProcess.Step, ChildOutput.AtWait, ChildOutput.HonestRun;
    var turn := turns[|turns| - 1];
    OneTurn(c, w, turns);
    ActKeepsProcess(After(c, w, turns[..|turns| - 1]), turn.idle);
    ChildOutput.NextIsStep(c, BeforeStep(c, w, turns), turn.step);
  }

  lemma ActKeepsProcess(w: ChildOutput.World, a: ChildOutput.Activity)
    ensures ChildOutput.Act(w, a).s == w.s
  {
  }
}
