/** What Session.RunFenced does under the runner's callbacks, for every behaviour of the
    world around it: a specification of internal/agent/agent.go `run` and `commitState`
    joined with the commit callback of internal/runner/runner.go `runAttempt`. */
module Driving {
  import opened Base
  import opened Domain
  import opened Plans
  import opened Agent

  /** How the world answers during one turn of the loop: whether the context is done at the
      top and during the delay, whether the two lease fences hold, whether the store accepts
      the publication, whether the compatibility file and the output stream can be written,
      and what the clock shows. */
  datatype Reply = Reply(
    cancelled: bool, fence: bool, delayCancelled: bool, refence: bool,
    accepts: bool, saves: bool, prints: bool, now: int)

  datatype Progress = Progress(output: string, tokensUsed: int, checkpoint: SessionState)

  /** Everything the attempt touches: the session, the compatibility file, the accumulated
      output lines, the publications the store accepted and the lines shown to the user. */
  datatype Bench = Bench(
    state: SessionState,
    file: Option<SessionState>,
    lines: seq<string>,
    published: seq<Progress>,
    shown: seq<string>,
    broken: bool)

  datatype RunEnd = Returned | FenceLost | PublicationRejected | SaveFailed

  datatype Turn = FenceStops | Proceed(cancelled: bool)

  function TakeTurn(s: SessionState, reply: Reply, noDelay: bool): Turn
    requires s.next <= |s.steps|
  {
    if s.next == |s.steps| then Proceed(false)
    else if reply.cancelled then Proceed(true)
    else if !reply.fence then FenceStops
    else if Stops(s) || noDelay then Proceed(false)
    else if reply.delayCancelled then Proceed(true)
    else if !reply.refence then FenceStops
    else Proceed(false)
  }

  function Extend(lines: seq<string>, line: Option<string>): seq<string>
  {
    if line.Some? then lines + [line.value] else lines
  }

  /** An accepted publication, before the compatibility file is written. */
  function Accept(b: Bench, move: Move, prints: bool): Bench
    requires move.state.next <= |move.state.steps|
  {
    var lines := Extend(b.lines, move.line);
    var writes := move.line.Some? && !b.broken;
    Bench(move.state, b.file, lines,
          b.published + [Progress(Join(lines, "\n"), move.state.used, move.state)],
          if writes && prints then b.shown + [move.line.value] else b.shown,
          b.broken || (writes && !prints))
  }

  datatype CommitEnd = Committed | Rejected | Unsaved

  /** Publish a transition that starts from b.state: a rejection leaves everything as it was,
      and the compatibility file is written only after the store has accepted. */
  function CommitMove(b: Bench, move: Move, reply: Reply): (r: (Bench, CommitEnd))
    requires move.state.next <= |move.state.steps|
    ensures r.1.Rejected? <==> !reply.accepts
  {
    if !reply.accepts then (b, Rejected)
    else if !reply.saves then (Accept(b, move, reply.prints), Unsaved)
    else (Accept(b, move, reply.prints).(file := Some(move.state)), Committed)
  }

  function Ending(end: CommitEnd): RunEnd
  {
    match end
    case Committed => Returned
    case Rejected => PublicationRejected
    case Unsaved => SaveFailed
  }

  /** One turn of the loop; the loop goes on when there is no ending. */
  function DriveOnce(b: Bench, reply: Reply, noDelay: bool): (r: (Bench, Option<RunEnd>))
    requires b.state.next <= |b.state.steps| && !b.state.halt.Terminal()
    ensures r.1.None? ==>
      b.state.next < r.0.state.next <= |r.0.state.steps| == |b.state.steps| && r.0.state.halt == b.state.halt
  {
    match TakeTurn(b.state, reply, noDelay)
    case FenceStops => (b, Some(FenceLost))
    case Proceed(cancelled) =>
      var move := Advance(b.state, cancelled, reply.now);
      var (after, end) := CommitMove(b, move, reply);
      (after, if !end.Committed? || move.state.halt.Terminal() then Some(Ending(end)) else None)
  }

  function Drive(b: Bench, replies: nat -> Reply, noDelay: bool, j: nat): (Bench, RunEnd)
    requires b.state.next <= |b.state.steps| && !b.state.halt.Terminal()
    decreases |b.state.steps| - b.state.next
  {
    var (after, end) := DriveOnce(b, replies(j), noDelay);
    if end.Some? then (after, end.value) else Drive(after, replies, noDelay, j + 1)
  }

  /** The state the store last accepted, or the state the attempt began with. */
  function LastAccepted(b: Bench, first: SessionState): SessionState
  {
    if |b.published| == 0 then first else b.published[|b.published| - 1].checkpoint
  }

  /** One accepted publication agrees with itself: its output is what AttemptCheckpoint
      would rebuild from its checkpoint, and its token count is the checkpoint's. */
  predicate Faithful(p: Progress, plan: Plan)
  {
    Accounted(p.checkpoint, plan) && p.output == AttemptOutput(p.checkpoint) && p.tokensUsed == p.checkpoint.used
  }

  /** What holds at every moment of an attempt that began in state first. */
  predicate Coherent(b: Bench, plan: Plan, first: SessionState)
  {
    && Accounted(b.state, plan)
    && b.state == LastAccepted(b, first)
    && b.lines == AttemptLines(b.state)
    && (forall k :: 0 <= k < |b.published| ==> Faithful(b.published[k], plan))
    && b.shown <= b.lines
    && (!b.broken ==> b.shown == b.lines)
  }

  lemma AcceptIsCoherent(b: Bench, plan: Plan, first: SessionState, cancelled: bool,
      reply: Reply, file: Option<SessionState>)
    requires Coherent(b, plan, first) && b.state.halt.HaltRunning?
    ensures Coherent(Accept(b, Advance(b.state, cancelled, reply.now), reply.prints).(file := file), plan, first)
  {
    hide Accounted, Advance, AttemptLines;
    var move := Advance(b.state, cancelled, reply.now);
    AdvanceAddsItsLine(b.state, plan, cancelled, reply.now);
    var after := Accept(b, move, reply.prints);
    assert after.lines == AttemptLines(move.state);
    assert Faithful(Progress(Join(after.lines, "\n"), move.state.used, move.state), plan);
  }

  /** The session invariant through the whole run loop. Whatever the world does: the books
      balance; the session equals the state the store last accepted, so nothing of a rejected
      publication survives; the accumulated lines are those AttemptCheckpoint rebuilds; every
      accepted publication is faithful; and the user was shown only accepted lines, in order. */
  lemma {:induction false} DriveIsCoherent(b: Bench, replies: nat -> Reply, noDelay: bool,
      j: nat, plan: Plan, first: SessionState)
    requires Coherent(b, plan, first) && b.state.halt.HaltRunning?
    ensures Coherent(Drive(b, replies, noDelay, j).0, plan, first)
    decreases |b.state.steps| - b.state.next
  {
    var (after, end) := DriveOnce(b, replies(j), noDelay);
    TurnIsCoherent(b, replies(j), noDelay, plan, first);
    hide DriveOnce, Accounted, Coherent;
    if end.None? {
      DriveIsCoherent(after, replies, noDelay, j + 1, plan, first);
    }
  }

  lemma TurnIsCoherent(b: Bench, reply: Reply, noDelay: bool, plan: Plan, first: SessionState)
    requires Coherent(b, plan, first) && b.state.halt.HaltRunning?
    ensures Coherent(DriveOnce(b, reply, noDelay).0, plan, first)
  {
    hide Advance, Accounted, AttemptLines, Faithful, LastAccepted, Stops;
    var turn := TakeTurn(b.state, reply, noDelay);
    if turn.Proceed? && reply.accepts {
      AcceptIsCoherent(b, plan, first, turn.cancelled, reply, b.file);
      AcceptIsCoherent(b, plan, first, turn.cancelled, reply, Some(Advance(b.state, turn.cancelled, reply.now).state));
    }
  }

  /** How the loop can end, and what each ending leaves behind. A return without error means
      a terminal state was published and saved; a lost fence or a rejected publication leaves
      the session running where the last accepted publication left it, and the compatibility
      file holds that publication and nothing newer. */
  lemma {:induction false} DriveEnds(b: Bench, replies: nat -> Reply, noDelay: bool, j: nat)
    requires b.state.next <= |b.state.steps| && b.state.halt.HaltRunning?
    ensures var (after, end) := Drive(b, replies, noDelay, j);
            && b.published <= after.published
            && (after.published == b.published ==> after.state == b.state)
            && (end.Returned? ==> after.state.halt.Terminal() && b.published != after.published)
            && (end.FenceLost? || end.PublicationRejected? ==> after.state.halt.HaltRunning?)
            && (!end.SaveFailed? ==> after.file == if after.published == b.published then b.file else Some(after.state))
    decreases |b.state.steps| - b.state.next
  {
    hide Advance, Stops;
    var (after, end) := DriveOnce(b, replies(j), noDelay);
    assert b.published <= after.published <= b.published + after.published[|b.published|..];
    if end.None? {
      assert |after.published| == |b.published| + 1;
      DriveEnds(after, replies, noDelay, j + 1);
    }
  }

  // ---- fences, cancellation and the reasons to halt ----

  predicate StepsLeft(s: SessionState)
  {
    s.next < |s.steps|
  }

  /** The loop asks for its lease and is refused: at the top of the turn, unless it has been
      cancelled, or after the delay before a step that would be executed. */
  predicate AsksInVain(s: SessionState, reply: Reply, noDelay: bool)
    requires s.next <= |s.steps|
  {
    && StepsLeft(s) && !reply.cancelled
    && (!reply.fence || (!Stops(s) && !noDelay && !reply.delayCancelled && !reply.refence))
  }

  /** The context is done when the loop looks: at the top of the turn, or during the delay. */
  predicate SeesCancellation(s: SessionState, reply: Reply, noDelay: bool)
    requires s.next <= |s.steps|
  {
    StepsLeft(s) && (reply.cancelled || (reply.fence && !Stops(s) && !noDelay && reply.delayCancelled))
  }

  /** What the world must have answered for the loop to go from state s to publish state c. */
  predicate Permitted(s: SessionState, c: SessionState, reply: Reply, noDelay: bool)
    requires s.next <= |s.steps|
  {
    && reply.accepts && !AsksInVain(s, reply, noDelay)
    && match c.halt
       case HaltCompleted => !StepsLeft(s)
       case HaltInterrupted => SeesCancellation(s, reply, noDelay) && c.next == s.next
       case HaltAgentError =>
         StepsLeft(s) && !reply.cancelled && reply.fence && s.erroredAt == s.next + 1 && c.next == s.next
       case HaltTokenExhausted =>
         && StepsLeft(s) && !reply.cancelled && reply.fence && s.erroredAt != s.next + 1
         && s.steps[s.next].cost > s.remaining && c.next == s.next
       case HaltRunning =>
         && StepsLeft(s) && !reply.cancelled && reply.fence && (noDelay || (!reply.delayCancelled && reply.refence))
         && s.erroredAt != s.next + 1 && s.steps[s.next].cost <= s.remaining && c.next == s.next + 1
       case HaltUnset => false
  }

  /** One turn. A refused lease ends it, and nothing has happened; a refused publication ends
      it, and nothing has happened; otherwise exactly one state is published, one that the
      answers permit; and the file takes it unless it cannot be written. */
  lemma TurnIsFenced(b: Bench, reply: Reply, noDelay: bool)
    requires b.state.next <= |b.state.steps| && b.state.halt.HaltRunning?
    ensures var (after, end) := DriveOnce(b, reply, noDelay);
            var lost := AsksInVain(b.state, reply, noDelay);
            && (end == Some(FenceLost) <==> lost)
            && (end == Some(PublicationRejected) <==> !lost && !reply.accepts)
            && (end == Some(SaveFailed) <==> !lost && reply.accepts && !reply.saves)
            && (lost || !reply.accepts ==> after == b)
            && (!lost && reply.accepts ==>
                  && |after.published| == |b.published| + 1 && b.published == after.published[..|b.published|]
                  && after.published[|b.published|].checkpoint == after.state
                  && Permitted(b.state, after.state, reply, noDelay)
                  && after.file == (if reply.saves then Some(after.state) else b.file)
                  && (reply.saves ==> (end == Some(Returned) <==> after.state.halt.Terminal())))
  {
    hide Advance, Join, Stops, Permitted;
    var turn := TakeTurn(b.state, reply, noDelay);
    if turn.Proceed? {
      AdvanceIsPermitted(b.state, reply, noDelay, turn.cancelled);
    }
  }

  lemma AdvanceIsPermitted(s: SessionState, reply: Reply, noDelay: bool, cancelled: bool)
    requires s.next <= |s.steps| && s.halt.HaltRunning? && TakeTurn(s, reply, noDelay) == Proceed(cancelled)
    ensures !AsksInVain(s, reply, noDelay)
    ensures reply.accepts ==> Permitted(s, Advance(s, cancelled, reply.now).state, reply, noDelay)
  {
    hide StepOutput, SummaryLine, ErrorText;
  }


  /** The state from which publication m was made. */
  function StateBefore(b: Bench, after: Bench, m: nat): SessionState
    requires |b.published| <= m <= |after.published|
  {
    if m == |b.published| then b.state else after.published[m - 1].checkpoint
  }

  /** Publication m of this run was made in turn m, and that turn's answers permitted it. */
  predicate MadeInItsTurn(b: Bench, after: Bench, replies: nat -> Reply, noDelay: bool, j: nat, m: nat)
    requires |b.published| <= m < |after.published|
  {
    var from := StateBefore(b, after, m);
    from.next <= |from.steps| && Permitted(from, after.published[m].checkpoint, replies(j + m - |b.published|), noDelay)
  }

  /** Every publication was permitted in its turn, and the way the run ended fits the turn
      after the last of them. */
  predicate FencedRun(b: Bench, after: Bench, end: RunEnd, replies: nat -> Reply, noDelay: bool, j: nat)
  {
    && |b.published| <= |after.published| && after.state.next <= |after.state.steps|
    && (forall m :: |b.published| <= m < |after.published| ==> MadeInItsTurn(b, after, replies, noDelay, j, m))
    && after.state == StateBefore(b, after, |after.published|)
    && var last := replies(j + |after.published| - |b.published|);
    && (end.FenceLost? ==> AsksInVain(after.state, last, noDelay))
    && (after.state.halt.HaltRunning? && AsksInVain(after.state, last, noDelay) ==> end.FenceLost? || end.SaveFailed?)
    && (end.PublicationRejected? ==> !last.accepts)
  }

  /** A whole run of the loop. Publication m was made in turn m, from the state published
      before it, and the answers of that turn permitted it: so no step was ever executed
      without every lease it had to ask for, a refused lease was never passed over, and a
      cancellation that was seen led to an interruption. The run ends in a lost fence only if
      the turn after its last publication asks in vain, and then it does, unless that
      publication could not be saved. */
  lemma {:induction false} DriveIsFenced(b: Bench, replies: nat -> Reply, noDelay: bool, j: nat)
    requires b.state.next <= |b.state.steps| && b.state.halt.HaltRunning?
    ensures var (after, end) := Drive(b, replies, noDelay, j);
            FencedRun(b, after, end, replies, noDelay, j)
    decreases |b.state.steps| - b.state.next
  {
    var (mid, end) := DriveOnce(b, replies(j), noDelay);
    if end.None? {
      DriveIsFenced(mid, replies, noDelay, j + 1);
      DriveGrows(mid, replies, noDelay, j + 1);
      hide DriveOnce, FencedRun;
      var (after, last) := Drive(mid, replies, noDelay, j + 1);
      FencedLater(b, mid, after, last, replies, noDelay, j);
    } else {
      hide DriveOnce, FencedRun;
      FencedAtOnce(b, mid, end.value, replies, noDelay, j);
    }
  }

  lemma FencedAtOnce(b: Bench, after: Bench, end: RunEnd, replies: nat -> Reply, noDelay: bool, j: nat)
    requires b.state.next <= |b.state.steps| && b.state.halt.HaltRunning?
    requires DriveOnce(b, replies(j), noDelay) == (after, Some(end))
    ensures FencedRun(b, after, end, replies, noDelay, j)
  {
    TurnIsFenced(b, replies(j), noDelay);
    TurnKeepsSize(b, replies(j), noDelay);
    hide DriveOnce, AsksInVain, Permitted;
    if |after.published| > |b.published| {
      assert MadeInItsTurn(b, after, replies, noDelay, j, |b.published|);
    }
  }

  lemma TurnKeepsSize(b: Bench, reply: Reply, noDelay: bool)
    requires b.state.next <= |b.state.steps| && b.state.halt.HaltRunning?
    ensures DriveOnce(b, reply, noDelay).0.state.next <= |DriveOnce(b, reply, noDelay).0.state.steps|
  {
    hide Stops, Join, StepOutput, SummaryLine, ErrorText;
  }

  lemma FencedLater(b: Bench, mid: Bench, after: Bench, end: RunEnd, replies: nat -> Reply, noDelay: bool, j: nat)
    requires b.state.next <= |b.state.steps| && b.state.halt.HaltRunning?
    requires DriveOnce(b, replies(j), noDelay) == (mid, None) && mid.published <= after.published
    requires FencedRun(mid, after, end, replies, noDelay, j + 1)
    ensures FencedRun(b, after, end, replies, noDelay, j)
  {
    TurnIsFenced(b, replies(j), noDelay);
    hide DriveOnce, AsksInVain, Permitted, MadeInItsTurn;
    forall m | |b.published| <= m < |after.published| ensures MadeInItsTurn(b, after, replies, noDelay, j, m) {
      MadeEarlier(b, mid, after, replies, noDelay, j, m);
    }
    assert after.published[..|mid.published|] == mid.published;
  }

  lemma MadeEarlier(b: Bench, mid: Bench, after: Bench, replies: nat -> Reply, noDelay: bool, j: nat, m: nat)
    requires |b.published| <= m < |after.published| && |mid.published| == |b.published| + 1
    requires b.state.next <= |b.state.steps| && b.published == mid.published[..|b.published|]
    requires mid.published <= after.published && mid.published[|b.published|].checkpoint == mid.state
    requires Permitted(b.state, mid.state, replies(j), noDelay)
    requires m > |b.published| ==> MadeInItsTurn(mid, after, replies, noDelay, j + 1, m)
    ensures MadeInItsTurn(b, after, replies, noDelay, j, m)
  {
    hide Permitted;
    if m == |b.published| {
      assert after.published[m] == mid.published[m];
    } else {
      assert StateBefore(b, after, m) == StateBefore(mid, after, m) by {
        assert after.published[..|mid.published|] == mid.published;
        assert after.published[|b.published|] == mid.published[|b.published|];
      }
    }
  }

  lemma DriveGrows(b: Bench, replies: nat -> Reply, noDelay: bool, j: nat)
    requires b.state.next <= |b.state.steps| && b.state.halt.HaltRunning?
    ensures b.published <= Drive(b, replies, noDelay, j).0.published
  {
    DriveEnds(b, replies, noDelay, j);
  }

  /** The world does not interfere. */
  ghost predicate Calm(replies: nat -> Reply)
  {
    forall j: nat :: var r := replies(j);
      !r.cancelled && r.fence && !r.delayCancelled && r.refence && r.accepts && r.saves
  }

  /** Undisturbed, with no error ahead and enough allowance, an attempt completes the plan. */
  lemma {:induction false} CalmRunCompletes(b: Bench, replies: nat -> Reply, noDelay: bool, j: nat, plan: Plan)
    requires Calm(replies) && Accounted(b.state, plan) && b.state.halt.HaltRunning?
    requires b.state.erroredAt == 0
    requires Cost(plan.steps, b.state.next, |plan.steps|) <= b.state.remaining
    ensures var (after, end) := Drive(b, replies, noDelay, j);
            end.Returned? && after.state.halt.HaltCompleted? && after.state.next == |plan.steps|
    decreases |b.state.steps| - b.state.next
  {
    hide StepOutput, SummaryLine, HaltExplained;
    var s := b.state;
    AdvanceKeepsBooks(s, plan, false, replies(j).now);
    if s.next < |plan.steps| {
      CostSplits(plan.steps, s.next, s.next + 1, |plan.steps|);
      assert Cost(plan.steps, s.next, s.next + 1) == Cost(plan.steps, s.next, s.next) + plan.steps[s.next].cost;
      assert s.steps[s.next].cost == plan.steps[s.next].cost;
      CalmRunCompletes(DriveOnce(b, replies(j), noDelay).0, replies, noDelay, j + 1, plan);
    }
  }

  /** A task without directives, and with at most one piece of feedback, always finishes in
      its first attempt when nothing interferes, whatever its hash. */
  lemma DefaultTaskCompletes(
    h: Word, title: string, feedback: seq<string>, id: SessionId, runID: nat, token: Token,
    replies: nat -> Reply, noDelay: bool, file: Option<SessionState>)
    requires |feedback| <= 1 && Calm(replies)
    ensures var plan := Plan(title, feedback, PlannedSteps(h, DefaultStepCount(h), feedback), DEFAULT_TOKEN_BUDGET, 0);
            var first := BindAttempt(Start(id, plan), runID, token);
            var (after, end) := Drive(Bench(first, file, [], [], [], false), replies, noDelay, 0);
            end.Returned? && after.state.halt.HaltCompleted? && after.state.next == |plan.steps|
  {
    hide FeedbackStep, BodyStep, DefaultStepCount;
    var steps := PlannedSteps(h, DefaultStepCount(h), feedback);
    var plan := Plan(title, feedback, steps, DEFAULT_TOKEN_BUDGET, 0);
    DefaultPlanFitsBudget(h, feedback);
    StartIsReady(id, plan);
    BindIsAccounted(Start(id, plan), plan, runID, token);
    CalmRunCompletes(Bench(BindAttempt(Start(id, plan), runID, token), file, [], [], [], false),
        replies, noDelay, 0, plan);
  }
}
