/** The mutable session of internal/agent/agent.go and the objects it writes to. The steps
    live in an array that a rolled-back transition replaces by the copy made beforehand. */
module SessionObject {
  import opened Base
  import opened Domain
  import opened Plans
  import opened Agent
  import opened Driving

  /** The compatibility file sessions/<id>.json, one value replaced whole. */
  class SessionFile {
    var content: Option<SessionState>

    constructor ()
      ensures content == None
    {
      content := None;
    }
  }

  /** The state captured by runAttempt's commit callback, with the store's record of what it
      accepted from this attempt and the output stream. */
  class ProgressSink {
    var lines: seq<string>
    var published: seq<Progress>
    var shown: seq<string>
    var broken: bool

    constructor ()
      ensures lines == [] && published == [] && shown == [] && !broken
    {
      lines, published, shown, broken := [], [], [], false;
    }

    /** Publish to the store first; only an accepted publication reaches the accumulated
        lines and the output stream. */
    method Commit(line: Option<string>, tokensUsed: int, checkpoint: SessionState, reply: Reply) returns (ok: bool)
      modifies this
      ensures ok == reply.accepts
      ensures !ok ==> unchanged(this)
      ensures ok ==> lines == Extend(old(lines), line)
                     && published == old(published) + [Progress(Join(lines, "\n"), tokensUsed, checkpoint)]
      ensures ok ==> shown == if line.Some? && !old(broken) && reply.prints then old(shown) + [line.value]
                              else old(shown)
      ensures ok ==> broken == (old(broken) || (line.Some? && !reply.prints))
    {
      var accumulated := lines;
      if line.Some? {
        accumulated := accumulated + [line.value];
      }
      if !reply.accepts {
        return false;
      }
      published := published + [Progress(Join(accumulated, "\n"), tokensUsed, checkpoint)];
      lines := accumulated;
      if line.Some? && !broken {
        if reply.prints {
          shown := shown + [line.value];
        } else {
          broken := true;
        }
      }
      return true;
    }
  }

  class Session {
    const noDelay: bool
    /** The scalar fields of the state record. Its steps component is not used: the steps are
        the array below, as a Go record holds a slice. */
    var header: SessionState
    var steps: array<Step>

    /** The session's state as the value a checkpoint holds. */
    function State(): SessionState
      reads this, steps
    {
      header.(steps := steps[..])
    }

    /** agent.Restore: rebuild a session from a checkpoint, changing nothing. */
    constructor Restore(checkpoint: SessionState, noDelay: bool)
      ensures State() == checkpoint && this.noDelay == noDelay && fresh(steps)
    {
      this.noDelay := noDelay;
      header := checkpoint;
      steps := new Step[|checkpoint.steps|](i requires 0 <= i < |checkpoint.steps| => checkpoint.steps[i]);
      new;
      assert steps[..] == checkpoint.steps;
    }

    method BeginAttempt(allowance: int, origin: WindowOrigin) returns (ok: bool)
      modifies this`header
      ensures match Agent.BeginAttempt(old(State()), allowance, origin)
              case Ok(s) => ok && State() == s
              case Err(_) => !ok && State() == old(State())
    {
      if allowance < 0 {
        return false;
      }
      header := header.(allowance := allowance, origin := origin);
      header := header.(remaining := allowance, used := 0);
      header := header.(budgetHalted := false);
      return true;
    }

    method ContinueAttempt()
      modifies this`header
      ensures State() == Agent.ContinueAttempt(old(State()))
    {
      header := header.(allowance := header.remaining);
      header := header.(origin := WindowContinued, used := 0, budgetHalted := false);
    }

    method BindAttempt(runID: nat, token: Token, file: SessionFile, saves: bool) returns (ok: bool)
      modifies this`header, file
      ensures State() == Agent.BindAttempt(old(State()), runID, token)
      ensures ok == saves && file.content == if saves then Some(State()) else old(file.content)
    {
      header := header.(runID := runID, token := token, start := header.next);
      header := header.(halt := HaltRunning, haltedAt := None, errorMessage := "");
      if saves {
        file.content := Some(State());
      }
      return saves;
    }

    /** The output part of AttemptCheckpoint: rebuild the attempt's lines from the steps. */
    method AttemptLines() returns (lines: seq<string>)
      requires header.next <= steps.Length
      ensures lines == Agent.AttemptLines(State())
    {
      lines := [];
      var index := header.start;
      while index < header.next
        invariant header.start <= index && (header.start <= header.next ==> index <= header.next)
        invariant index <= header.next ==> lines == Outputs(steps[..], header.start, index)
        invariant header.start > header.next ==> lines == [] && index == header.start
      {
        if steps[index].output != "" {
          lines := lines + [steps[index].output];
        }
        index := index + 1;
      }
      if header.halt.HaltCompleted? {
        lines := lines + [SummaryLine(steps.Length, header.title)];
      }
    }

    /** cloneState: a deep copy, steps array included. */
    method CloneState() returns (previous: SessionState, backup: array<Step>)
      ensures previous == State()
      ensures fresh(backup) && backup[..] == previous.steps
    {
      previous := State();
      backup := new Step[steps.Length](i requires 0 <= i < steps.Length reads this, steps => steps[i]);
    }

    /** Everything the attempt touches, as one value. */
    function View(sink: ProgressSink, file: SessionFile): Bench
      reads this, steps, sink, file
    {
      Bench(State(), file.content, sink.lines, sink.published, sink.shown, sink.broken)
    }

    static function Stamped(s: SessionState, now: int): SessionState
    {
      if s.halt.Terminal() && s.haltedAt.None? then s.(haltedAt := Some(now)) else s
    }

    /** commitState for a fenced run: stamp a terminal state, publish, and either roll back
        or write the compatibility file. Rolling back puts the copied array in place of the
        live one, which the transition may have written to. */
    method CommitState(
        previous: SessionState, backup: array<Step>, line: Option<string>, reply: Reply,
        sink: ProgressSink, file: SessionFile)
      returns (end: CommitEnd)
      requires header.next <= steps.Length && backup[..] == previous.steps
      modifies this, sink, file
      ensures (View(sink, file), end) == CommitMove(
                old(View(sink, file)).(state := previous),
                Move(Stamped(old(State()), reply.now), line),
                reply)
      ensures steps == if reply.accepts then old(steps) else backup
    {
      if header.halt.Terminal() && header.haltedAt.None? {
        header := header.(haltedAt := Some(reply.now));
      }
      var checkpoint := State();
      var ok := sink.Commit(line, header.used, checkpoint, reply);
      if !ok {
        header, steps := previous, backup;
        return Rejected;
      }
      if !reply.saves {
        return Unsaved;
      }
      file.content := Some(State());
      return Committed;
    }

    /** The exit the loop takes in this state, if it takes one. */
    static function ExitTaken(s: SessionState, cancelled: bool): Option<HaltReason>
      requires s.next <= |s.steps|
    {
      if s.next == |s.steps| then Some(HaltCompleted)
      else if cancelled then Some(HaltInterrupted)
      else if s.erroredAt > 0 && s.next + 1 == s.erroredAt then Some(HaltAgentError)
      else if s.steps[s.next].cost > s.remaining then Some(HaltTokenExhausted)
      else None
    }

    /** The state in which a session leaves the loop, before it is stamped. */
    static function Leaving(s: SessionState, reason: HaltReason): SessionState
      requires s.next <= |s.steps| && (reason.HaltAgentError? ==> s.next < |s.steps|)
    {
      match reason
      case HaltCompleted => s.(halt := reason, completed := true)
      case HaltAgentError =>
          s.(halt := reason, errorMessage := ErrorText(s.next + 1, s.steps[s.next].name), erroredAt := 0)
      case HaltTokenExhausted => s.(halt := reason, budgetHalted := true)
      case _ => s.(halt := reason)
    }

    /** Each exit is the transition of the step machine. */
    static lemma LeavingAdvances(s: SessionState, reason: HaltReason, cancelled: bool, now: int)
      requires s.next <= |s.steps| && !s.halt.Terminal() && ExitTaken(s, cancelled) == Some(reason)
      ensures var line := if reason.HaltCompleted? then Some(SummaryLine(|s.steps|, s.title)) else None;
              Move(Stamped(Leaving(s, reason), now), line) == Agent.Advance(s, cancelled, now)
    {
      hide SummaryLine, ErrorText, StepOutput;
    }

    /** A terminal exit of run: record why the session halts and commit that. */
    method Leave(reason: HaltReason, ghost cancelled: bool, reply: Reply, sink: ProgressSink, file: SessionFile)
      returns (end: RunEnd)
      requires header.next <= steps.Length && !header.halt.Terminal()
      requires ExitTaken(State(), cancelled) == Some(reason)
      modifies this, sink, file
      ensures var (after, committed) :=
                CommitMove(old(View(sink, file)), Agent.Advance(old(State()), cancelled, reply.now), reply);
              View(sink, file) == after && end == Ending(committed)
    {
      hide CommitMove, SummaryLine, ErrorText, Agent.Advance, Stamped;
      var previous, backup := CloneState();
      var line := None;
      header := header.(halt := reason);
      if reason.HaltCompleted? {
        header := header.(completed := true);
        line := Some(SummaryLine(steps.Length, header.title));
      } else if reason.HaltAgentError? {
        header := header.(errorMessage := ErrorText(header.next + 1, steps[header.next].name));
        header := header.(erroredAt := 0);
      } else if reason.HaltTokenExhausted? {
        header := header.(budgetHalted := true);
      }
      assert State() == Leaving(previous, reason);
      LeavingAdvances(previous, reason, cancelled, reply.now);
      var committed := CommitState(previous, backup, line, reply, sink, file);
      end := Ending(committed);
    }

    /** The body of the loop once nothing stops it: the step is written into the live array
        through the pointer taken before the copy was made. */
    method ExecuteStep(reply: Reply, sink: ProgressSink, file: SessionFile) returns (end: CommitEnd)
      requires header.next < steps.Length && !header.halt.Terminal() && !Stops(State())
      modifies this, steps, sink, file
      ensures (View(sink, file), end) ==
              CommitMove(old(View(sink, file)), Agent.Advance(old(State()), false, reply.now), reply)
      ensures reply.accepts ==> steps == old(steps)
    {
      var previous, backup := CloneState();
      var live, index := steps, header.next;
      var output := StepOutput(index + 1, live.Length, live[index].name);
      live[index] := live[index].(output := output, done := true);
      header := header.(used := header.used + live[index].cost, remaining := header.remaining - live[index].cost);
      header := header.(next := header.next + 1);
      assert steps[..]
          == previous.steps[index := Step(previous.steps[index].name, previous.steps[index].cost, true, output)];
      assert State() == Agent.Advance(previous, false, reply.now).state;
      end := CommitState(previous, backup, Some(output), reply, sink, file);
    }

    /** One turn of the run loop. */
    method TakeTurn(reply: Reply, sink: ProgressSink, file: SessionFile) returns (end: Option<RunEnd>)
      requires header.next < steps.Length && !header.halt.Terminal()
      modifies this, steps, sink, file
      ensures (View(sink, file), end) == DriveOnce(old(View(sink, file)), reply, noDelay)
      ensures end.None? ==> steps == old(steps)
    {
      hide Agent.Advance, CommitMove;
      if reply.cancelled {
        var left := Leave(HaltInterrupted, true, reply, sink, file);
        return Some(left);
      }
      if !reply.fence {
        return Some(FenceLost);
      }
      if header.erroredAt > 0 && header.next + 1 == header.erroredAt {
        var left := Leave(HaltAgentError, false, reply, sink, file);
        return Some(left);
      }
      if steps[header.next].cost > header.remaining {
        var left := Leave(HaltTokenExhausted, false, reply, sink, file);
        return Some(left);
      }
      if !noDelay {
        if reply.delayCancelled {
          var left := Leave(HaltInterrupted, true, reply, sink, file);
          return Some(left);
        }
        if !reply.refence {
          return Some(FenceLost);
        }
      }
      var committed := ExecuteStep(reply, sink, file);
      end := if committed.Committed? then None else Some(Ending(committed));
    }

    /** RunFenced. */
    method RunFenced(replies: nat -> Reply, sink: ProgressSink, file: SessionFile) returns (end: RunEnd)
      requires header.next <= steps.Length && !header.halt.Terminal()
      modifies this, steps, sink, file
      ensures (View(sink, file), end) == Drive(old(View(sink, file)), replies, noDelay, 0)
      ensures old(header.halt.HaltRunning?) ==>
        FencedRun(old(View(sink, file)), View(sink, file), end, replies, noDelay, 0)
    {
      ghost var first := View(sink, file);
      if header.halt.HaltRunning? {
        DriveIsFenced(first, replies, noDelay, 0);
      }
      hide Agent.Advance, CommitMove, FencedRun;
      var j: nat := 0;
      while header.next < steps.Length
        invariant header.next <= steps.Length && !header.halt.Terminal() && steps == old(steps)
        invariant Drive(View(sink, file), replies, noDelay, j) == Drive(old(View(sink, file)), replies, noDelay, 0)
        decreases steps.Length - header.next
      {
        var left := TakeTurn(replies(j), sink, file);
        if left.Some? {
          return left.value;
        }
        j := j + 1;
      }
      end := Leave(HaltCompleted, false, replies(j), sink, file);
    }
  }
}
