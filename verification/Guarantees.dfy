/** What every reachable supervisor guarantees, in terms of what it did. */
module Guarantees {
  import opened Protocol
  import opened Trace
  import opened Steps
  import opened Invariant
  import opened Preservation
  import opened Safety
  import opened TraceFacts

  /** A reachable supervisor's trace was allowed throughout. */
  lemma ReachablePair(s: State, i: nat, j: nat)
    requires Reachable(s) && i < j < |s.log|
    ensures Summary(s.log[..j]).ok && Allowed(Summary(s.log[..j]), s.log[j])
    ensures Allowed(Summary(s.log[..i]), s.log[i])
    ensures Grown(Observe(Summary(s.log[..i]), s.log[i]), Summary(s.log[..j]))
  {
    hide Summary, Observe, Allowed, Grown, Reachable, Ledger, Accounts, Tracked, Staged, StopOk, QuietOk,
      WaiterReplies;
    ReachableIsGood(s);
    Pair(s.log, i, j);
  }

  lemma ReachableAt(s: State, j: nat)
    requires Reachable(s) && j < |s.log|
    ensures Summary(s.log[..j]).ok && Allowed(Summary(s.log[..j]), s.log[j])
  {
    hide Summary, Observe, Allowed, Grown, Reachable, Ledger, Accounts, Tracked, Staged, StopOk, QuietOk,
      WaiterReplies;
    ReachableIsGood(s);
    AllowedAt(s.log, j);
  }

  // ---- Replies -------------------------------------------------------------------------------

  /** Conservation: each reply channel taken from the queue is settled, or held by exactly one of
      the hand-off and the waiters; each `Stop` collected is answered or held by the stop sequence.
      Once the supervisor is gone nothing is held. */
  lemma RepliesConserved(s: State)
    requires Reachable(s)
    ensures Summary(s.log).replies.received == Summary(s.log).replies.settled + Held(s)
    ensures Summary(s.log).stops.received == Summary(s.log).stops.settled + multiset(StopReplies(s))
    ensures forall reply :: Summary(s.log).replies.received[reply] <= 1 && Summary(s.log).stops.received[reply] <= 1
    ensures s.life.Gone? ==> Held(s) == multiset{} && StopReplies(s) == []
  {
    hide Summary, Reachable, WaiterReplies, Accounts, Tracked, Staged, StopOk, QuietOk;
    ReachableIsGood(s);
    assert Summary(s.log).replies.settled + Held(s) + multiset{} == Summary(s.log).replies.settled + Held(s);
  }

  /** No reply channel is settled twice. */
  lemma SettledOnce(s: State, i: nat, j: nat, reply: Token)
    requires Reachable(s) && i < j < |s.log|
    ensures !(Settles(s.log[i], reply) && Settles(s.log[j], reply))
    ensures !(s.log[i] == StopAnswered(reply) && s.log[j] == StopAnswered(reply))
  {
    hide Summary, Reachable;
    ReachablePair(s, i, j);
    ReceivedOnce(s.log[..j], reply);
    var m := Observe(Summary(s.log[..i]), s.log[i]);
    assert Settles(s.log[i], reply) ==> m.replies.settled[reply] > 0;
    assert s.log[i] == StopAnswered(reply) ==> m.stops.settled[reply] > 0;
  }

  /** Only a reply channel that was received is settled. */
  lemma SettledWasReceived(s: State, j: nat, reply: Token) returns (i: nat)
    requires Reachable(s) && j < |s.log| && Settles(s.log[j], reply)
    ensures i < j && s.log[i].Received? && s.log[i].command.reply == reply
  {
    hide Summary, Observe, Reachable;
    ReachableAt(s, j);
    i := ReceivedBefore(s.log[..j], reply);
  }

  /** Once the supervisor is gone, every reply channel it received was settled. */
  lemma ReceivedIsSettled(s: State, i: nat, reply: Token) returns (j: nat)
    requires Reachable(s) && s.life.Gone? && i < |s.log| && s.log[i].Received? && s.log[i].command.reply == reply
    ensures j < |s.log| && Settles(s.log[j], reply)
  {
    hide Summary, Reachable, WaiterReplies, Accounts, Tracked, Staged, StopOk, QuietOk;
    ReachableIsGood(s);
    AllowedAt(s.log, i);
    assert Observe(Summary(s.log[..i]), s.log[i]).replies.received[reply] > 0;
    j := SettledBefore(s.log, reply);
  }

  /** Once the supervisor is gone, every `Stop` it collected was answered, after exit handling. */
  lemma StopIsAnswered(s: State, i: nat, reply: Token) returns (exited: nat, j: nat)
    requires Reachable(s) && s.life.Gone? && i < |s.log| && s.log[i] == StopJoined(reply)
    ensures exited < j < |s.log| && s.log[exited] == ExitHandled && s.log[j] == StopAnswered(reply)
  {
    hide Summary, Reachable, WaiterReplies, Accounts, Tracked, Staged, StopOk, QuietOk;
    ReachableIsGood(s);
    AllowedAt(s.log, i);
    assert Observe(Summary(s.log[..i]), s.log[i]).stops.received[reply] > 0;
    j := StopAnsweredBefore(s.log, reply);
    exited := StopAnsweredAfterExit(s, j);
  }

  // ---- Control requests ----------------------------------------------------------------------

  /** A request of this supervisor's, or one its handshake wrote and gave up on. */
  predicate Wrote(o: Obs, id: RequestId) {
    || (o.ControlSent? && o.ok && o.id == id)
    || (o.SettingsSent? && o.ok && o.id == id)
    || (o.Inherited? && id in o.ids)
  }

  /** Until exit, what was written and not answered is exactly what somebody waits for. */
  lemma RequestsAccounted(s: State)
    requires Reachable(s) && !s.life.Gone?
    ensures var book := Summary(s.log).requests;
            && book.written - book.answered == s.waiters.Keys + SetupIds(s) + s.abandoned
            && s.waiters.Keys !! SetupIds(s) !! s.abandoned
  {
    hide Summary, Reachable, WaiterReplies, Ledger, Tracked, Staged, StopOk, QuietOk;
    ReachableIsGood(s);
  }

  /** A response "nobody is waiting on" answers a request that was never written, or already was. */
  lemma UnmatchedWasAnswered(s: State, i: nat, j: nat, id: RequestId) returns (k: nat)
    requires Reachable(s) && i < j < |s.log|
    requires Wrote(s.log[i], id) && s.log[j] == Unmatched(id)
    ensures k < j && s.log[k].Answered? && s.log[k].id == id
  {
    hide Summary, Reachable;
    ReachablePair(s, i, j);
    assert id in Observe(Summary(s.log[..i]), s.log[i]).requests.written;
    k := AnsweredBefore(s.log[..j], id);
  }

  /** Request ids are never reused, and each is answered at most once. */
  lemma RequestsOnce(s: State, i: nat, j: nat, id: RequestId)
    requires Reachable(s) && i < j < |s.log|
    ensures !(Wrote(s.log[i], id) && Wrote(s.log[j], id))
    ensures !(s.log[i].Answered? && s.log[i].id == id && s.log[j].Answered? && s.log[j].id == id)
  {
    hide Summary, Reachable;
    ReachablePair(s, i, j);
  }

  // ---- Turns ---------------------------------------------------------------------------------

  /** A user line: its hand-off began, then its turn started, and only then it was written, with no
      turn active, no other hand-off in flight, and the CLI's settings those of the turn. */
  lemma UserLineReady(s: State, j: nat) returns (began: nat, started: nat)
    requires Reachable(s) && j < |s.log| && s.log[j].UserLine?
    ensures began < started < j
    ensures s.log[began].HandOffBegan? && s.log[began].reply == s.log[j].reply
    ensures s.log[started] == TurnStarted(s.log[j].turn)
    ensures s.log[j].active == None && s.log[j].handOffs == 0
    ensures SettingsHold(s.log[j].settings, s.log[j].mode, s.log[j].model, s.log[j].effort)
  {
    hide Summary, Observe, Reachable;
    ReachableAt(s, j);
    began, started := StartedSince(s.log[..j], s.log[j].reply, s.log[j].turn);
  }

  /** At most one user line per `StartTurn`. */
  lemma UserLineOnce(s: State, i: nat, j: nat)
    requires Reachable(s) && i < j < |s.log|
    requires s.log[i].UserLine? && s.log[j].UserLine?
    ensures s.log[i].reply != s.log[j].reply
  {
    hide Summary, Reachable;
    ReachablePair(s, i, j);
  }

  /** The requests of one hand-off go out in strictly increasing stage order under one budget. */
  lemma RequestsInOrder(s: State, i: nat, j: nat)
    requires Reachable(s) && i < j < |s.log|
    requires s.log[i].SettingsSent? && s.log[j].SettingsSent? && s.log[i].reply == s.log[j].reply
    ensures Rank(s.log[i].stage) < Rank(s.log[j].stage)
    ensures s.log[i].budget == s.log[j].budget
  {
    hide Summary, Reachable;
    ReachablePair(s, i, j);
    var m := Observe(Summary(s.log[..i]), s.log[i]);
    assert m.turns.handOffs[s.log[i].reply].rank == Rank(s.log[i].stage);
  }

  /** So one hand-off sends at most four. */
  lemma {:induction false} AtMostFourRequests(s: State, reply: Token, at: seq<nat>)
    requires Reachable(s)
    requires forall k | 0 <= k < |at| ::
               at[k] < |s.log| && s.log[at[k]].SettingsSent? && s.log[at[k]].reply == reply
    requires forall k, l | 0 <= k < l < |at| :: at[k] < at[l]
    ensures |at| <= 4
    ensures at != [] ==> Rank(s.log[at[|at| - 1]].stage) >= |at| - 1
    decreases |at|
  {
    hide Reachable;
    if |at| > 1 {
      AtMostFourRequests(s, reply, at[..|at| - 1]);
      RequestsInOrder(s, at[|at| - 2], at[|at| - 1]);
    }
  }

  /** No stage deadline passes the budget fixed at the hand-off's start, nor ten seconds. */
  lemma DeadlinesBounded(s: State, j: nat) returns (began: nat)
    requires Reachable(s) && j < |s.log| && s.log[j].SettingsSent?
    ensures began < j && s.log[began].HandOffBegan? && s.log[began].reply == s.log[j].reply
    ensures s.log[j].deadline <= s.log[began].at + TURN_SETTINGS_BUDGET
    ensures s.log[j].deadline <= s.log[j].at + CONTROL_TIMEOUT
  {
    hide Summary, Observe, Reachable;
    ReachableAt(s, j);
    began := HandOffBeganBefore(s.log[..j], s.log[j].reply);
  }

  // ---- Idleness ------------------------------------------------------------------------------

  /** At the top of a serving loop the idle clock runs iff nothing keeps the child busy. */
  lemma IdleClock(s: State, asks: bool)
    requires !Halted(s)
    ensures TrackIdle(s, asks).idleSince.Some? <==> BusyWith(s, asks).None?
    ensures BusyWith(s, asks).None? <==>
            s.setup.None? && !asks && !s.mapper.routes && !s.mapper.tasks && s.waiters == map[]
            && s.mapper.active.None?
  {
  }

  /** Since when the child is idle, as the top of this turn of the loop finds it. */
  function IdleFrom(s: State): Instant {
    if s.idleSince.Some? then s.idleSince.value else s.clock
  }

  /** The idle timer fires exactly in a serving turn of the loop that finds nothing to keep the child
      busy, with reaping on, once it has been idle and silent for the timeout. */
  lemma IdleTimerFiresExactlyWhen(s: State, t: Steps.Turn)
    requires t.input.IdleTimer?
    ensures Enabled(s, t) <==>
              && s.life.Looping? && s.phase.Serving?
              && s.setup.None? && !t.asks && !s.mapper.routes && !s.mapper.tasks && s.waiters == map[]
              && s.mapper.active.None?
              && s.idleTimeout.Some?
              && Max(IdleFrom(s), s.lastLine) + s.idleTimeout.value <= s.clock + t.w.waited
              && FreshCommand(s, t.input.queued)
  {
    hide BusyWith, FreshCommand;
    if !Halted(s) {
      IdleClock(s, t.asks);
    }
  }

  /** Since when the mapper has waited for a turn after a notification, as this turn of the loop finds it. */
  function AwaitingFrom(s: State): Instant {
    if s.awaitingSince.Some? then s.awaitingSince.value else s.clock
  }

  lemma TrackedStays(s: State, asks: bool)
    ensures var tracked := TrackIdle(s, asks);
            && tracked.life == s.life && tracked.mapper == s.mapper && tracked.clock == s.clock
            && tracked.awaitingSince == s.awaitingSince
  {
    hide BusyWith;
  }

  /** The notification timer fires exactly while the mapper waits for a turn after a notification, two
      seconds after the loop first found it waiting. */
  lemma NotificationTimerFiresExactlyWhen(s: State, t: Steps.Turn)
    requires t.input.NotificationTimer?
    ensures Enabled(s, t) <==>
              && s.life.Looping?
              && s.mapper.awaiting
              && AwaitingFrom(s) + NOTIFICATION_GRACE <= s.clock + t.w.waited
  {
    hide BusyWith, FreshCommand, StageDeadline, IdleDeadline, TrackIdle;
    TrackedStays(s, t.asks);
  }

  /** A reap comes only after a whole timeout that began at a loop top which found the child idle,
      with no line and no busy loop top since, and with nothing in hand. */
  lemma ReapedAfterQuiet(s: State, j: nat) returns (top: nat)
    requires Reachable(s) && j < |s.log| && s.log[j].Reaped?
    ensures top < j && s.log[top].LoopTop? && s.log[top].busy == None
    ensures s.log[top].at + s.log[j].timeout <= s.log[j].at
    ensures forall i | 0 <= i < j ::
              && (s.log[i].LineRead? ==> s.log[i].at + s.log[j].timeout <= s.log[j].at)
              && (s.log[i].LoopTop? && s.log[i].busy.Some? ==> s.log[i].at + s.log[j].timeout <= s.log[j].at)
    ensures s.log[j].handOffs == 0 && s.log[j].waiting == 0
  {
    hide Summary, Observe, Reachable;
    ReachableAt(s, j);
    var at :| at in Summary(s.log[..j]).quiet.idleTops && at + s.log[j].timeout <= s.log[j].at;
    top := IdleTopBefore(s.log[..j], at);
    forall i | 0 <= i < j
      ensures s.log[i].LineRead? ==> s.log[i].at + s.log[j].timeout <= s.log[j].at
      ensures s.log[i].LoopTop? && s.log[i].busy.Some? ==> s.log[i].at + s.log[j].timeout <= s.log[j].at
    {
      QuietBefore(s, i, j);
    }
  }

  lemma QuietBefore(s: State, i: nat, j: nat)
    requires Reachable(s) && i < j < |s.log| && s.log[j].Reaped?
    ensures s.log[i].LineRead? ==> s.log[i].at + s.log[j].timeout <= s.log[j].at
    ensures s.log[i].LoopTop? && s.log[i].busy.Some? ==> s.log[i].at + s.log[j].timeout <= s.log[j].at
  {
    hide Summary, Reachable;
    ReachablePair(s, i, j);
  }

  /** What reaches a thread's log, asks, routes or entry. Two things a reaped child may still do are not
      among them, and only ever take pending asks away: the CLI withdraws an ask, the mapper closes a
      route and with it the route's asks. */
  predicate ReachesThread(o: Obs) {
    || o.Published? || o.TurnStarted? || o.Noticed? || o.AskRecorded? || o.AskCleared?
    || o.AskReinserted? || o.RoutePublished? || o.EntrySynced? || o.EntryReleased?
    || o.EntryRemoved? || o.AsksDropped? || o.LogClosed?
  }

  lemma ReapedIsKeptAway(m: Monitor, o: Obs)
    requires m.ends.reaped && Allowed(m, o)
    ensures !ReachesThread(o)
  {
  }

  lemma ReapIsRemembered(m: Monitor, o: Obs, later: Monitor)
    requires o.Reaped? && Grown(Observe(m, o), later)
    ensures later.ends.reaped
  {
    hide Allowed, HandOffsGrow;
  }

  /** Whatever a reaped child still says reaches neither its thread's log nor its entry, and adds, clears
      or drops none of its asks; only a withdrawal and the end of a route still take pending asks away. */
  lemma ReapedStaysAway(s: State, i: nat, j: nat)
    requires Reachable(s) && i < j < |s.log| && s.log[i].Reaped?
    ensures !ReachesThread(s.log[j])
  {
    hide Summary, Observe, Allowed, Grown, Reachable, ReachesThread;
    ReachablePair(s, i, j);
    ReapIsRemembered(Summary(s.log[..i]), s.log[i], Summary(s.log[..j]));
    ReapedIsKeptAway(Summary(s.log[..j]), s.log[j]);
  }

  // ---- Stopping ------------------------------------------------------------------------------

  /** Once stopping, nothing is served: no turn, no settings request, no answer, and of all control
      requests only the stop's own interrupt. */
  lemma StoppingServesNothing(s: State, i: nat, j: nat)
    requires Reachable(s) && i < j < |s.log| && s.log[i].Stopping?
    ensures var o := s.log[j];
            && !(o.UserLine? || o.CompactLine? || o.HandOffBegan? || o.SettingsSent? || o.TurnStarted?
                 || o.AskAnswered? || o.AskReinserted? || o.EntrySynced? || o.Stopping?)
            && (o.ControlSent? ==> o.what == StopInterrupt)
  {
    hide Summary, Reachable;
    ReachablePair(s, i, j);
    assert Observe(Summary(s.log[..i]), s.log[i]).ends.stopping;
  }

  /** Stdin closes once, after the stop's interrupt, and before a grace kill. */
  lemma StdinClosesOnce(s: State, i: nat, j: nat)
    requires Reachable(s) && i < j < |s.log| && s.log[i].StdinClosed?
    ensures !s.log[j].StdinClosed? && !s.log[j].ControlSent?
  {
    hide Summary, Reachable;
    ReachablePair(s, i, j);
    assert Observe(Summary(s.log[..i]), s.log[i]).ends.stdinClosed;
  }

  lemma StdinClosedBeforeKill(s: State, j: nat) returns (i: nat)
    requires Reachable(s) && j < |s.log| && s.log[j].Killed? && s.log[j].grace
    ensures i < j && s.log[i].StdinClosed?
  {
    hide Summary, Observe, Reachable;
    ReachableAt(s, j);
    i := StdinClosedBefore(s.log[..j]);
  }

  /** A collected `Stop` is answered after exit handling. */
  lemma StopAnsweredAfterExit(s: State, j: nat) returns (i: nat)
    requires Reachable(s) && j < |s.log| && s.log[j].StopAnswered?
    ensures i < j && s.log[i] == ExitHandled
  {
    hide Summary, Observe, Reachable;
    ReachableAt(s, j);
    i := ExitHandledBefore(s.log[..j]);
  }

  // ---- Asks ----------------------------------------------------------------------------------

  /** An answer written after its ask was withdrawn out of the facade's hand means that in between
      a turn started, or an earlier answer to it was refused. */
  lemma AnswerAfterWithdrawal(s: State, i: nat, j: nat) returns (k: nat)
    requires Reachable(s) && i < j < |s.log|
    requires s.log[j].AskAnswered? && s.log[i] == AskWithdrawn(s.log[j].ask, None)
    ensures i < k < j && Forgets(s.log[k], s.log[j].ask)
  {
    hide Summary, Observe, Reachable;
    var ask := s.log[j].ask;
    ReachableAt(s, j);
    if forall l | i < l < j :: !Forgets(s.log[l], ask) {
      assert forall l | i < l < |s.log[..j]| :: s.log[..j][l] == s.log[l];
      WithdrawalRemembered(s.log[..j], ask, i);
      assert false;
    } else {
      k :| i < k < j && Forgets(s.log[k], ask);
    }
  }
}
