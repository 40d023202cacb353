/** The life of the CLI's asks across the mapper, the facade's calls, the child's queue and the
    supervisor: who holds each, what is answered, what a withdrawal still stops. */
module Asks {
  import Protocol

  type AskId = Protocol.AskId

  /** A queued command, as far as asks go: an answer, a turn to begin at once (`Compact`), a turn
      to hand off first (`StartTurn`), or anything else. */
  datatype Queued = Answer(ask: AskId) | Begins | HandsOff | Unrelated

  /** The child: it serves its queue, refuses it, is past its loop with the queue still there, or is
      gone with its queue until another child takes its place. */
  datatype Phase = Serving | Stopping | Over | Gone

  datatype Books = Books(
    pending: set<AskId>,          // recorded until the facade takes them
    inHand: set<AskId>,           // taken by a facade call, its command not enqueued yet
    queue: seq<Queued>,
    phase: Phase,
    handingOff: bool,             // a turn is being handed off; it may still begin
    withdrawn: set<AskId>,
    emitted: set<AskId>,
    written: multiset<AskId>)     // the answers written so far

  const QUIET: Books := Books({}, {}, [], Serving, false, {}, {}, multiset{})

  const COMMAND_QUEUE: nat := 16

  datatype Move =
    | Emits(ask: AskId)                        // the mapper records an ask, once per id
    | TakesAsk(ask: AskId)                     // a facade call takes it out of the pending map
    | PutsBack(ask: AskId)                     // the call cannot use this decision
    | Sends(ask: AskId, reachable: bool)       // the call enqueues its answer, or loses the ask
    | Posts(command: Queued)                   // any other command enters the queue
    | Serves(gaveUp: bool, fits: bool, accepts: bool, writes: bool)
    | HandOffEnds(begins: bool)
    | Withdraws(ask: AskId)                    // the CLI's withdrawal reaches the supervisor
    | Forgets(asks: set<AskId>)                // a thread, a route or a child ends
    | Stops                                    // the stop sequence begins
    | Ends                                     // the loop ends: end of output, a failure, a stop
    | Drops                                    // the queue goes with the child
    | Respawns                                 // another child serves the thread

  predicate InLoop(s: Books) {
    s.phase.Serving? || s.phase.Stopping?
  }

  /** A command can enter the queue. */
  predicate Takes(s: Books) {
    !s.phase.Gone? && |s.queue| < COMMAND_QUEUE
  }

  predicate CanMove(s: Books, m: Move) {
    match m
    case Emits(ask) => InLoop(s) && ask !in s.emitted
    case TakesAsk(ask) => ask in s.pending
    case PutsBack(ask) => ask in s.inHand
    case Sends(ask, _) => ask in s.inHand
    case Posts(command) => !command.Answer? && Takes(s)
    case Serves(_, _, _, _) => InLoop(s) && s.queue != []
    case HandOffEnds(_) => s.phase.Serving? && s.handingOff
    case Withdraws(_) => InLoop(s)
    case Forgets(_) => true
    case Stops => s.phase.Serving?
    case Ends => InLoop(s)
    case Drops => s.phase.Over?
    case Respawns => s.phase.Gone?
  }

  /** What a serving supervisor does with an answer: refuse it, keep the ask, or write it. */
  datatype Verdict = Refused | Kept | Wrote

  function Judge(s: Books, ask: AskId, gaveUp: bool, fits: bool): Verdict {
    if ask in s.withdrawn then Refused
    else if gaveUp || !fits then Kept
    else Wrote
  }

  /** A write that fails breaks the child. */
  function Broken(s: Books, writes: bool): Books {
    if writes then s else s.(phase := Over, handingOff := false)
  }

  /** The first command of the queue; a stopping supervisor refuses it, whatever it is. */
  function Serve(s: Books, gaveUp: bool, fits: bool, accepts: bool, writes: bool): Books
    requires s.queue != []
  {
    var rest := s.(queue := s.queue[1..]);
    if s.phase.Stopping? then rest
    else
      match s.queue[0]
      case Answer(ask) =>
        (match Judge(s, ask, gaveUp, fits)
         case Refused => rest.(withdrawn := s.withdrawn - {ask})
         case Kept => rest.(pending := s.pending + {ask})
         case Wrote => Broken(if writes then rest.(written := s.written + multiset{ask}) else rest, writes))
      case Begins => if gaveUp || !accepts then rest else Broken(rest.(withdrawn := {}), writes)
      case HandsOff => if gaveUp || !accepts then rest else Broken(rest.(handingOff := true), writes)
      case Unrelated => Broken(rest, writes)
  }

  function Moved(s: Books, m: Move): Books
    requires CanMove(s, m)
  {
    match m
    case Emits(ask) => s.(pending := s.pending + {ask}, emitted := s.emitted + {ask})
    case TakesAsk(ask) => s.(pending := s.pending - {ask}, inHand := s.inHand + {ask})
    case PutsBack(ask) => s.(pending := s.pending + {ask}, inHand := s.inHand - {ask})
    case Sends(ask, reachable) =>
      var left := s.(inHand := s.inHand - {ask});
      if reachable && Takes(s) then left.(queue := s.queue + [Answer(ask)]) else left
    case Posts(command) => s.(queue := s.queue + [command])
    case Serves(gaveUp, fits, accepts, writes) => Serve(s, gaveUp, fits, accepts, writes)
    case HandOffEnds(begins) =>
      if begins then s.(handingOff := false, withdrawn := {}) else s.(handingOff := false)
    case Withdraws(ask) =>
      if ask in s.pending then s.(pending := s.pending - {ask})
      else s.(withdrawn := s.withdrawn + {ask})
    case Forgets(asks) => s.(pending := s.pending - asks)
    case Stops => s.(phase := Stopping, handingOff := false)
    case Ends => s.(phase := Over, handingOff := false)
    case Drops => s.(phase := Gone, queue := [])
    case Respawns => s.(phase := Serving, withdrawn := {})
  }

  function Next(s: Books, m: Move): Books {
    if CanMove(s, m) then Moved(s, m) else s
  }

  function Run(s: Books, moves: seq<Move>): Books
    decreases |moves|
  {
    if moves == [] then s else Run(Next(s, moves[0]), moves[1..])
  }

  // ---- At most one answer --------------------------------------------------------------------

  /** How many queued commands answer `ask`. */
  function Answers(queue: seq<Queued>, ask: AskId): nat {
    if queue == [] then 0 else (if queue[0] == Answer(ask) then 1 else 0) + Answers(queue[1..], ask)
  }

  lemma {:induction false} AnswersAppend(queue: seq<Queued>, command: Queued, ask: AskId)
    ensures Answers(queue + [command], ask) == Answers(queue, ask) + if command == Answer(ask) then 1 else 0
  {
    if queue == [] {
      assert [command][1..] == [];
    } else {
      assert (queue + [command])[1..] == queue[1..] + [command];
      AnswersAppend(queue[1..], command, ask);
    }
  }

  function One(b: bool): nat {
    if b then 1 else 0
  }

  /** How many times `ask` could still be, or was, answered. */
  function Copies(s: Books, ask: AskId): nat {
    One(ask in s.pending) + One(ask in s.inHand) + Answers(s.queue, ask) + s.written[ask]
  }

  predicate Single(s: Books, ask: AskId) {
    Copies(s, ask) <= One(ask in s.emitted)
  }

  lemma NextNeverCopies(s: Books, m: Move, ask: AskId)
    requires Single(s, ask)
    ensures Single(Next(s, m), ask)
    ensures ask in s.emitted ==> Copies(Next(s, m), ask) <= Copies(s, ask)
  {
    if CanMove(s, m) {
      match m
      case Sends(other, _) => AnswersAppend(s.queue, Answer(other), ask);
      case Posts(command) => AnswersAppend(s.queue, command, ask);
      case _ =>
    }
  }

  lemma {:induction false} RunNeverCopies(s: Books, moves: seq<Move>, ask: AskId)
    requires Single(s, ask)
    ensures Single(Run(s, moves), ask)
    ensures ask in s.emitted ==> Copies(Run(s, moves), ask) <= Copies(s, ask)
    decreases |moves|
  {
    hide Next, Single;
    if moves != [] {
      NextNeverCopies(s, moves[0], ask);
      if ask in s.emitted {
        EmittedStays(s, moves[0], ask);
      }
      RunNeverCopies(Next(s, moves[0]), moves[1..], ask);
    }
  }

  lemma EmittedStays(s: Books, m: Move, ask: AskId)
    requires ask in s.emitted
    ensures ask in Next(s, m).emitted
  {
  }

  /** Over every run, an ask is answered at most once, and only if the CLI made it. */
  lemma AnsweredAtMostOnce(moves: seq<Move>, ask: AskId)
    ensures Run(QUIET, moves).written[ask] <= 1
    ensures Run(QUIET, moves).written[ask] == 1 ==> ask in Run(QUIET, moves).emitted
  {
    RunNeverCopies(QUIET, moves, ask);
  }

  ghost predicate Reachable(s: Books) {
    exists moves: seq<Move> :: s == Run(QUIET, moves)
  }

  lemma ReachableIsSingle(s: Books, ask: AskId)
    requires Reachable(s)
    ensures Single(s, ask)
  {
    var moves: seq<Move> :| s == Run(QUIET, moves);
    hide Run;
    RunNeverCopies(QUIET, moves, ask);
  }

  // ---- Lost asks -----------------------------------------------------------------------------

  /** The steps that lose an ask: its command is not enqueued, a stopping child refuses it, its
      withdrawal refuses it, its write fails, it goes with its queue, or it is withdrawn or forgotten
      while it waits. */
  predicate Loses(s: Books, m: Move, ask: AskId) {
    && CanMove(s, m)
    && match m
       case Sends(other, reachable) => other == ask && !(reachable && Takes(s))
       case Serves(gaveUp, fits, _, writes) =>
         && s.queue[0] == Answer(ask)
         && (s.phase.Stopping? || ask in s.withdrawn || (!gaveUp && fits && !writes))
       case Drops => Answer(ask) in s.queue
       case Withdraws(other) => other == ask && ask in s.pending
       case Forgets(asks) => ask in asks && ask in s.pending
       case _ => false
  }

  predicate LosesIn(s: Books, moves: seq<Move>, ask: AskId)
    decreases |moves|
  {
    moves != [] && (Loses(s, moves[0], ask) || LosesIn(Next(s, moves[0]), moves[1..], ask))
  }

  lemma {:induction false} AnswersAreQueued(queue: seq<Queued>, ask: AskId)
    ensures Answers(queue, ask) > 0 <==> Answer(ask) in queue
  {
    if queue != [] {
      AnswersAreQueued(queue[1..], ask);
      assert queue == [queue[0]] + queue[1..];
    }
  }

  lemma StepLosesExactly(s: Books, m: Move, ask: AskId)
    requires Single(s, ask) && Copies(s, ask) == 1
    ensures Copies(Next(s, m), ask) == 0 <==> Loses(s, m, ask)
  {
    AnswersAreQueued(s.queue, ask);
    if CanMove(s, m) {
      match m
      case Sends(other, _) => AnswersAppend(s.queue, Answer(other), ask);
      case Posts(command) => AnswersAppend(s.queue, command, ask);
      case _ =>
    }
  }

  lemma {:induction false} RunLosesExactly(s: Books, moves: seq<Move>, ask: AskId)
    requires Single(s, ask) && Copies(s, ask) == 1
    ensures Copies(Run(s, moves), ask) == 0 <==> LosesIn(s, moves, ask)
    decreases |moves|
  {
    hide Next, Loses, Copies;
    if moves != [] {
      CopiedIsEmitted(s, ask);
      var next := Next(s, moves[0]);
      NextNeverCopies(s, moves[0], ask);
      StepLosesExactly(s, moves[0], ask);
      EmittedStays(s, moves[0], ask);
      if Copies(next, ask) == 0 {
        RunNeverCopies(next, moves[1..], ask);
      } else {
        RunLosesExactly(next, moves[1..], ask);
      }
    }
  }

  lemma CopiedIsEmitted(s: Books, ask: AskId)
    requires Single(s, ask) && Copies(s, ask) > 0
    ensures ask in s.emitted
  {
  }

  /** Nothing is left of an ask: it was not answered, and nothing can answer or show it any more. */
  predicate Lost(s: Books, ask: AskId) {
    && s.written[ask] == 0
    && ask !in s.pending
    && ask !in s.inHand
    && Answer(ask) !in s.queue
  }

  /** Over every run, an ask the facade took ends up lost exactly when its command was not enqueued, a
      child stopped or went before it was served, its write failed, or it was withdrawn or forgotten;
      and what is lost stays lost. */
  lemma TakenAskIsLostExactlyWhen(s: Books, ask: AskId, moves: seq<Move>, later: seq<Move>)
    requires Reachable(s) && ask in s.inHand
    ensures Lost(Run(s, moves), ask) <==> LosesIn(s, moves, ask)
    ensures Lost(Run(s, moves), ask) ==> Lost(Run(Run(s, moves), later), ask)
  {
    ReachableIsSingle(s, ask);
    var after := Run(s, moves);
    RunNeverCopies(s, moves, ask);
    RunLosesExactly(s, moves, ask);
    AnswersAreQueued(after.queue, ask);
    assert Lost(after, ask) <==> Copies(after, ask) == 0;
    if Lost(after, ask) {
      EmittedStaysOver(s, moves, ask);
      RunNeverCopies(after, later, ask);
      AnswersAreQueued(Run(after, later).queue, ask);
    }
  }

  lemma {:induction false} EmittedStaysOver(s: Books, moves: seq<Move>, ask: AskId)
    requires ask in s.emitted
    ensures ask in Run(s, moves).emitted
    decreases |moves|
  {
    hide Next;
    if moves != [] {
      EmittedStays(s, moves[0], ask);
      EmittedStaysOver(Next(s, moves[0]), moves[1..], ask);
    }
  }

  /** An answer that was enqueued, and is refused because its child began to stop meanwhile. */
  lemma EnqueuedAnswerCanBeLost(ask: AskId)
    ensures var taken := Run(QUIET, [Emits(ask), TakesAsk(ask)]);
            var rest := [Sends(ask, true), Stops, Serves(false, true, true, true)];
            && ask in taken.inHand
            && Answer(ask) in Run(taken, rest[..1]).queue
            && Lost(Run(taken, rest), ask)
  {
    var before := [Emits(ask), TakesAsk(ask)];
    var rest := [Sends(ask, true), Stops, Serves(false, true, true, true)];
    hide Run, Renewed;
    var s1 := First(QUIET, before);
    var s2 := First(s1, before[1..]);
    assert before[1..][1..] == [];
    Nothing(s2);
    assert s2 == QUIET.(inHand := {ask}, emitted := {ask});
    var s3 := First(s2, rest);
    assert s3 == QUIET.(queue := [Answer(ask)], emitted := {ask});
    var s4 := First(s3, rest[1..]);
    var s5 := First(s4, rest[2..]);
    assert s5 == s4.(queue := []);
    assert rest[1..][1..] == rest[2..] && rest[2..][1..] == [];
    Nothing(s5);
    var again := First(s2, rest[..1]);
    assert rest[..1][1..] == [];
    Nothing(again);
  }

  // ---- Withdrawals ---------------------------------------------------------------------------

  /** The move forgets the withdrawals so far: it begins a turn, or another child takes over. */
  predicate Renews(s: Books, m: Move) {
    && CanMove(s, m)
    && (|| (m.Serves? && s.phase.Serving? && s.queue[0].Begins? && !m.gaveUp && m.accepts)
        || (m.HandOffEnds? && m.begins)
        || m.Respawns?)
  }

  /** Some move of the run does. */
  predicate Renewed(s: Books, moves: seq<Move>)
    decreases |moves|
  {
    moves != [] && (Renews(s, moves[0]) || Renewed(Next(s, moves[0]), moves[1..]))
  }

  lemma WithdrawalOutlives(s: Books, m: Move, ask: AskId)
    requires Single(s, ask) && ask in s.withdrawn && !Renews(s, m)
    ensures ask in Next(s, m).withdrawn || (ask in Next(s, m).emitted && Copies(Next(s, m), ask) == 0)
  {
    NextNeverCopies(s, m, ask);
  }

  /** While an answer to it may still come, a withdrawal is remembered until a turn begins. */
  lemma {:induction false} WithdrawalIsRemembered(s: Books, moves: seq<Move>, ask: AskId)
    requires Single(s, ask) && ask in s.withdrawn && !Renewed(s, moves)
    requires Answers(Run(s, moves).queue, ask) > 0
    ensures ask in Run(s, moves).withdrawn
    decreases |moves|
  {
    hide Next, Single, Renews;
    if moves != [] {
      var next := Next(s, moves[0]);
      WithdrawalOutlives(s, moves[0], ask);
      NextNeverCopies(s, moves[0], ask);
      if ask in next.withdrawn {
        WithdrawalIsRemembered(next, moves[1..], ask);
      } else {
        RunNeverCopies(next, moves[1..], ask);
        assert false;
      }
    }
  }

  lemma {:induction false} StaysForgotten(s: Books, moves: seq<Move>, ask: AskId)
    requires ask !in s.withdrawn && Withdraws(ask) !in moves
    ensures ask !in Run(s, moves).withdrawn
    decreases |moves|
  {
    if moves != [] {
      assert moves[0] in moves;
      StaysForgotten(Next(s, moves[0]), moves[1..], ask);
    }
  }

  lemma RenewingForgets(s: Books, m: Move)
    requires Renews(s, m)
    ensures Next(s, m).withdrawn == {}
  {
  }

  lemma {:induction false} RenewalForgets(s: Books, moves: seq<Move>, ask: AskId)
    requires Renewed(s, moves) && Withdraws(ask) !in moves
    ensures ask !in Run(s, moves).withdrawn
    decreases |moves|
  {
    hide Next, Renews;
    if Renews(s, moves[0]) {
      RenewingForgets(s, moves[0]);
      StaysForgotten(Next(s, moves[0]), moves[1..], ask);
    } else {
      RenewalForgets(Next(s, moves[0]), moves[1..], ask);
    }
  }

  /** An answer in flight when its ask was withdrawn, and served by a child that is not stopping, is
      refused exactly when no turn began and no other child took over between the withdrawal and the
      serving; otherwise it is written exactly when its caller waits, it fits and the write succeeds. */
  lemma WithdrawnAskIsRefusedUnlessRenewed(s: Books, between: seq<Move>, ask: AskId, gaveUp: bool, fits: bool,
                                           writes: bool)
    requires Reachable(s) && CanMove(s, Withdraws(ask)) && ask !in s.pending
    requires Withdraws(ask) !in between
    requires var served := Run(Next(s, Withdraws(ask)), between);
             served.phase.Serving? && served.queue != [] && served.queue[0] == Answer(ask)
    ensures var withdrawn := Next(s, Withdraws(ask));
            var served := Run(withdrawn, between);
            && (Judge(served, ask, gaveUp, fits) == Refused <==> !Renewed(withdrawn, between))
            && Next(served, Serves(gaveUp, fits, true, writes)).written[ask]
                 == One(Renewed(withdrawn, between) && !gaveUp && fits && writes)
  {
    ReachableIsSingle(s, ask);
    var withdrawn := Next(s, Withdraws(ask));
    NextNeverCopies(s, Withdraws(ask), ask);
    RunNeverCopies(withdrawn, between, ask);
    var served := Run(withdrawn, between);
    assert Answers(served.queue, ask) > 0;
    assert served.written[ask] == 0;
    if Renewed(withdrawn, between) {
      RenewalForgets(withdrawn, between, ask);
    } else {
      WithdrawalIsRemembered(withdrawn, between, ask);
    }
  }

  /** A compaction and an answer queued behind it, the answer's ask no longer pending. */
  function BothQueued(ask: AskId): Books {
    QUIET.(emitted := {ask}, queue := [Begins, Answer(ask)])
  }

  lemma QueuesBoth(ask: AskId)
    ensures var before := [Emits(ask), TakesAsk(ask), Posts(Begins), Sends(ask, true)];
            Run(QUIET, before) == BothQueued(ask) && !Renewed(QUIET, before)
  {
    var before := [Emits(ask), TakesAsk(ask), Posts(Begins), Sends(ask, true)];
    hide Run, Renewed;
    var s1 := First(QUIET, before);
    assert s1 == QUIET.(pending := {ask}, emitted := {ask});
    var s2 := First(s1, before[1..]);
    assert s2 == QUIET.(inHand := {ask}, emitted := {ask});
    var s3 := First(s2, before[2..]);
    assert s3 == QUIET.(inHand := {ask}, emitted := {ask}, queue := [Begins]);
    var s4 := First(s3, before[3..]);
    assert s4 == BothQueued(ask);
    assert before[1..][1..] == before[2..] && before[2..][1..] == before[3..] && before[3..][1..] == [];
    Nothing(s4);
  }

  lemma ServesBoth(ask: AskId)
    ensures var rest := [Withdraws(ask), Serves(false, true, true, true), Serves(false, true, true, true)];
            && ask in Run(BothQueued(ask), rest[..1]).withdrawn
            && Run(BothQueued(ask), rest).written[ask] == 1
  {
    var rest := [Withdraws(ask), Serves(false, true, true, true), Serves(false, true, true, true)];
    hide Run, Renewed;
    var s1 := First(BothQueued(ask), rest);
    assert s1 == BothQueued(ask).(withdrawn := {ask});
    var s2 := First(s1, rest[1..]);
    assert s2 == QUIET.(emitted := {ask}, queue := [Answer(ask)]);
    var s3 := First(s2, rest[2..]);
    assert s3.written[ask] == 1;
    assert rest[1..][1..] == rest[2..] && rest[2..][1..] == [];
    Nothing(s3);
    var again := First(BothQueued(ask), rest[..1]);
    assert rest[..1][1..] == [];
    Nothing(again);
  }

  /** A turn that begins only after the answer was enqueued is enough to forget the withdrawal: the
      compaction was queued before the answer, and the withdrawal came while both were queued. */
  lemma ForgottenAfterTheEnqueue(ask: AskId)
    ensures var before := [Emits(ask), TakesAsk(ask), Posts(Begins), Sends(ask, true)];
            var rest := [Withdraws(ask), Serves(false, true, true, true), Serves(false, true, true, true)];
            && !Renewed(QUIET, before)
            && ask in Run(Run(QUIET, before), rest[..1]).withdrawn
            && Run(Run(QUIET, before), rest).written[ask] == 1
  {
    hide Run, Renewed;
    QueuesBoth(ask);
    ServesBoth(ask);
  }

  lemma Nothing(s: Books)
    ensures Run(s, []) == s && !Renewed(s, [])
  {
  }

  lemma First(s: Books, moves: seq<Move>) returns (next: Books)
    requires moves != []
    ensures next == Next(s, moves[0])
    ensures Run(s, moves) == Run(next, moves[1..])
    ensures Renewed(s, moves) == (Renews(s, moves[0]) || Renewed(next, moves[1..]))
  {
    next := Next(s, moves[0]);
  }
}
