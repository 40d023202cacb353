/** What an accepted trace promises, in terms of its own observations. */
module TraceFacts {
  import opened Protocol
  import opened Trace
  import opened Invariant

  // ---- The past only grows -------------------------------------------------------------------

  predicate HandOffsGrow(a: TurnBook, b: TurnBook) {
    && a.begun <= b.begun
    && a.lines <= b.lines
    && forall reply <- a.handOffs ::
         && reply in b.handOffs
         && b.handOffs[reply].began == a.handOffs[reply].began
         && a.handOffs[reply].rank <= b.handOffs[reply].rank
  }

  predicate Reaches(a: Option<Instant>, b: Option<Instant>) {
    a.Some? ==> b.Some? && a.value <= b.value
  }

  predicate Grown(a: Monitor, b: Monitor) {
    && HandOffsGrow(a.turns, b.turns)
    && a.replies.received <= b.replies.received
    && a.replies.settled <= b.replies.settled
    && a.stops.received <= b.stops.received
    && a.stops.settled <= b.stops.settled
    && a.requests.written <= b.requests.written
    && a.requests.answered <= b.requests.answered
    && (a.ends.stopping ==> b.ends.stopping)
    && (a.ends.stdinClosed ==> b.ends.stdinClosed)
    && (a.ends.reaped ==> b.ends.reaped)
    && (a.ends.exited ==> b.ends.exited)
    && Reaches(a.quiet.lastLine, b.quiet.lastLine)
    && Reaches(a.quiet.lastBusy, b.quiet.lastBusy)
  }

  lemma TurnsGrow(m: Monitor, o: Obs)
    requires Allowed(m, o)
    ensures HandOffsGrow(m.turns, Observe(m, o).turns)
  {
    hide Write, Later, SettleAll, LongAgo, SettingsHold, Open;
  }

  lemma RepliesGrow(m: Monitor, o: Obs)
    ensures var n := Observe(m, o);
            m.replies.received <= n.replies.received && m.replies.settled <= n.replies.settled
  {
    hide Allowed, Advance, Write, Later;
  }

  lemma StopsGrow(m: Monitor, o: Obs)
    ensures var n := Observe(m, o);
            m.stops.received <= n.stops.received && m.stops.settled <= n.stops.settled
  {
    hide Allowed, Advance, Write, Later;
  }

  lemma RequestsGrow(m: Monitor, o: Obs)
    ensures var n := Observe(m, o);
            m.requests.written <= n.requests.written && m.requests.answered <= n.requests.answered
  {
    hide Allowed, Advance, Later, SettleAll;
  }

  lemma EndsGrow(m: Monitor, o: Obs)
    ensures var n := Observe(m, o);
            && (m.ends.stopping ==> n.ends.stopping) && (m.ends.stdinClosed ==> n.ends.stdinClosed)
            && (m.ends.reaped ==> n.ends.reaped) && (m.ends.exited ==> n.ends.exited)
  {
    hide Allowed, Advance, Later, Write, SettleAll;
  }

  lemma QuietGrows(m: Monitor, o: Obs)
    ensures var n := Observe(m, o);
            Reaches(m.quiet.lastLine, n.quiet.lastLine) && Reaches(m.quiet.lastBusy, n.quiet.lastBusy)
  {
    hide Allowed, Advance, Write, SettleAll;
  }

  lemma GrownStep(m: Monitor, o: Obs)
    requires m.ok && Allowed(m, o)
    ensures Grown(m, Observe(m, o))
  {
    hide Allowed, HandOffsGrow, Observe, Reaches;
    TurnsGrow(m, o);
    RepliesGrow(m, o);
    StopsGrow(m, o);
    RequestsGrow(m, o);
    EndsGrow(m, o);
    QuietGrows(m, o);
  }

  lemma GrownTwice(a: Monitor, b: Monitor, c: Monitor)
    requires Grown(a, b) && Grown(b, c)
    ensures Grown(a, c)
  {
  }

  /** Every observation of an accepted trace was allowed where it stands. */
  lemma {:induction false} AllowedAt(log: seq<Obs>, i: nat)
    requires Summary(log).ok && i < |log|
    ensures Summary(log[..i]).ok && Allowed(Summary(log[..i]), log[i])
    ensures Grown(Observe(Summary(log[..i]), log[i]), Summary(log))
    ensures Summary(log[..i + 1]) == Observe(Summary(log[..i]), log[i])
    decreases |log|
  {
    var init := log[..|log| - 1];
    var last := log[|log| - 1];
    assert log == init + [last];
    Sees(init, last);
    assert Summary(init).ok && Allowed(Summary(init), last) by {
      Verdict(Summary(init), last);
    }
    hide Summary, Observe, Allowed, Grown;
    if i == |log| - 1 {
      assert log[..i] == init;
      assert log[..i + 1] == log;
      GrownSelf(Summary(log));
    } else {
      AllowedAt(init, i);
      assert log[..i] == init[..i] && log[i] == init[i] && log[..i + 1] == init[..i + 1];
      GrownStep(Summary(init), last);
      GrownTwice(Observe(Summary(log[..i]), log[i]), Summary(init), Summary(log));
    }
  }

  lemma Verdict(m: Monitor, o: Obs)
    ensures Observe(m, o).ok == (m.ok && Allowed(m, o))
  {
  }

  lemma GrownSelf(m: Monitor)
    ensures Grown(m, m)
  {
  }

  /** What was observed at `i` still holds where `j` is observed. */
  lemma Pair(log: seq<Obs>, i: nat, j: nat)
    requires Summary(log).ok && i < j < |log|
    ensures Summary(log[..j]).ok && Allowed(Summary(log[..j]), log[j])
    ensures Grown(Observe(Summary(log[..i]), log[i]), Summary(log[..j]))
    ensures Allowed(Summary(log[..i]), log[i])
  {
    hide Summary, Observe, Allowed, Grown;
    AllowedAt(log, j);
    AllowedAt(log[..j], i);
    assert log[..j][..i] == log[..i] && log[..j][i] == log[i];
  }

  // ---- From the summary back to the observation ----------------------------------------------

  lemma Unfolds(log: seq<Obs>)
    ensures log == [] ==> Summary(log) == START
    ensures log != [] ==> Summary(log) == Observe(Summary(log[..|log| - 1]), log[|log| - 1])
  {
    hide Observe;
  }

  lemma {:induction false} LatestBefore(log: seq<Obs>, reply: Token) returns (i: nat)
    requires Summary(log).turns.latest == Some(reply)
    ensures i < |log| && log[i].HandOffBegan? && log[i].reply == reply
    decreases |log|
  {
    Unfolds(log);
    hide Summary, Allowed;
    var last := log[|log| - 1];
    if last.HandOffBegan? {
      i := |log| - 1;
    } else {
      i := LatestBefore(log[..|log| - 1], reply);
    }
  }

  /** A turn started since the latest hand-off began: the hand-off first, then the turn. */
  lemma {:induction false} StartedSince(log: seq<Obs>, reply: Token, turn: TurnId) returns (began: nat, started: nat)
    requires Summary(log).turns.latest == Some(reply) && turn in Summary(log).turns.since
    ensures began < started < |log|
    ensures log[began].HandOffBegan? && log[began].reply == reply && log[started] == TurnStarted(turn)
    decreases |log|
  {
    Unfolds(log);
    hide Summary, Allowed;
    var last := log[|log| - 1];
    if last == TurnStarted(turn) {
      started := |log| - 1;
      began := LatestBefore(log[..|log| - 1], reply);
    } else {
      began, started := StartedSince(log[..|log| - 1], reply, turn);
    }
  }

  lemma {:induction false} IdleTopBefore(log: seq<Obs>, at: Instant) returns (i: nat)
    requires at in Summary(log).quiet.idleTops
    ensures i < |log| && log[i] == LoopTop(at, None)
    decreases |log|
  {
    Unfolds(log);
    hide Summary, Allowed;
    var last := log[|log| - 1];
    if last == LoopTop(at, None) {
      i := |log| - 1;
    } else {
      i := IdleTopBefore(log[..|log| - 1], at);
    }
  }

  lemma {:induction false} HandOffBeganBefore(log: seq<Obs>, reply: Token) returns (i: nat)
    requires Summary(log).ok && reply in Summary(log).turns.handOffs
    ensures i < |log| && log[i] == HandOffBegan(reply, Summary(log).turns.handOffs[reply].began)
    decreases |log|
  {
    Unfolds(log);
    hide Summary, Allowed;
    var last := log[|log| - 1];
    if last.HandOffBegan? && last.reply == reply {
      i := |log| - 1;
    } else {
      i := HandOffBeganBefore(log[..|log| - 1], reply);
    }
  }

  lemma {:induction false} ReceivedBefore(log: seq<Obs>, reply: Token) returns (i: nat)
    requires Summary(log).replies.received[reply] > 0
    ensures i < |log| && log[i].Received? && log[i].command.reply == reply
    decreases |log|
  {
    Unfolds(log);
    hide Summary, Allowed;
    var last := log[|log| - 1];
    if last.Received? && last.command.reply == reply {
      i := |log| - 1;
    } else {
      i := ReceivedBefore(log[..|log| - 1], reply);
    }
  }

  lemma {:induction false} StopJoinedBefore(log: seq<Obs>, reply: Token) returns (i: nat)
    requires Summary(log).stops.received[reply] > 0
    ensures i < |log| && log[i] == StopJoined(reply)
    decreases |log|
  {
    Unfolds(log);
    hide Summary, Allowed;
    var last := log[|log| - 1];
    if last == StopJoined(reply) {
      i := |log| - 1;
    } else {
      i := StopJoinedBefore(log[..|log| - 1], reply);
    }
  }

  lemma {:induction false} StopAnsweredBefore(log: seq<Obs>, reply: Token) returns (i: nat)
    requires Summary(log).stops.settled[reply] > 0
    ensures i < |log| && log[i] == StopAnswered(reply)
    decreases |log|
  {
    Unfolds(log);
    hide Summary, Allowed;
    var last := log[|log| - 1];
    if last == StopAnswered(reply) {
      i := |log| - 1;
    } else {
      i := StopAnsweredBefore(log[..|log| - 1], reply);
    }
  }

  predicate Settles(o: Obs, reply: Token) {
    match o
    case Settled(r, _) => r == reply
    case WaitersFailed(replies) => replies[reply] > 0
    case _ => false
  }

  lemma {:induction false} SettledBefore(log: seq<Obs>, reply: Token) returns (i: nat)
    requires Summary(log).replies.settled[reply] > 0
    ensures i < |log| && Settles(log[i], reply)
    decreases |log|
  {
    Unfolds(log);
    hide Summary, Allowed;
    var last := log[|log| - 1];
    if Settles(last, reply) {
      i := |log| - 1;
    } else {
      i := SettledBefore(log[..|log| - 1], reply);
    }
  }

  lemma {:induction false} AnsweredBefore(log: seq<Obs>, id: RequestId) returns (i: nat)
    requires id in Summary(log).requests.answered
    ensures i < |log| && log[i].Answered? && log[i].id == id
    decreases |log|
  {
    Unfolds(log);
    hide Summary, Allowed;
    var last := log[|log| - 1];
    if last.Answered? && last.id == id {
      i := |log| - 1;
    } else {
      i := AnsweredBefore(log[..|log| - 1], id);
    }
  }

  lemma {:induction false} StdinClosedBefore(log: seq<Obs>) returns (i: nat)
    requires Summary(log).ends.stdinClosed
    ensures i < |log| && log[i].StdinClosed?
    decreases |log|
  {
    Unfolds(log);
    hide Summary, Allowed, Advance, Write, Later, SettleAll;
    if log[|log| - 1].StdinClosed? {
      i := |log| - 1;
    } else {
      i := StdinClosedBefore(log[..|log| - 1]);
    }
  }

  lemma {:induction false} StoppingBefore(log: seq<Obs>) returns (i: nat)
    requires Summary(log).ends.stopping
    ensures i < |log| && log[i].Stopping?
    decreases |log|
  {
    Unfolds(log);
    hide Summary, Allowed, Advance, Write, Later, SettleAll;
    if log[|log| - 1].Stopping? {
      i := |log| - 1;
    } else {
      i := StoppingBefore(log[..|log| - 1]);
    }
  }

  lemma {:induction false} ExitHandledBefore(log: seq<Obs>) returns (i: nat)
    requires Summary(log).ends.exited
    ensures i < |log| && log[i] == ExitHandled
    decreases |log|
  {
    Unfolds(log);
    hide Summary, Allowed, Advance, Write, Later, SettleAll;
    if log[|log| - 1] == ExitHandled {
      i := |log| - 1;
    } else {
      i := ExitHandledBefore(log[..|log| - 1]);
    }
  }

  lemma {:induction false} ReceivedOnce(log: seq<Obs>, reply: Token)
    requires Summary(log).ok
    ensures Summary(log).replies.received[reply] <= 1 && Summary(log).stops.received[reply] <= 1
    decreases |log|
  {
    Unfolds(log);
    hide Summary;
    if log != [] {
      ReceivedOnce(log[..|log| - 1], reply);
    }
  }

  /** An observation that lets the supervisor forget a withdrawal. */
  predicate Forgets(o: Obs, ask: AskId) {
    o.TurnStarted? || o == AskRefused(ask)
  }

  /** A remembered withdrawal stays remembered until a turn starts or its answer is refused. */
  lemma {:induction false} WithdrawalRemembered(log: seq<Obs>, ask: AskId, i: nat)
    requires i < |log| && log[i] == AskWithdrawn(ask, None)
    requires forall k | i < k < |log| :: !Forgets(log[k], ask)
    ensures ask in Summary(log).withdrawn
    decreases |log|
  {
    Unfolds(log);
    hide Summary, Allowed;
    if i < |log| - 1 {
      var init := log[..|log| - 1];
      assert forall k | i < k < |init| :: init[k] == log[k] && !Forgets(log[k], ask);
      WithdrawalRemembered(init, ask, i);
    }
  }
}
