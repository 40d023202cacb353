/** What holds of a supervisor between any two operations, and that every operation keeps it. */
module Invariant {
  import opened Protocol
  import opened Trace
  import opened Steps

  // ---- The waiter map's reply channels -------------------------------------------------------

  lemma FirstWaiter(waiters: map<RequestId, Waiter>) returns (first: RequestId)
    requires waiters != map[]
    ensures first in waiters
    ensures WaiterReplies(waiters) == ReplyOf(waiters[first]) + WaiterReplies(waiters - {first})
  {
    first :| first in waiters
      && WaiterReplies(waiters) == ReplyOf(waiters[first]) + WaiterReplies(waiters - {first});
  }

  lemma {:induction false} WaiterRemoved(waiters: map<RequestId, Waiter>, id: RequestId)
    requires id in waiters
    ensures WaiterReplies(waiters) == ReplyOf(waiters[id]) + WaiterReplies(waiters - {id})
    decreases |waiters|
  {
    hide WaiterReplies;
    var first := FirstWaiter(waiters);
    if first != id {
      WaiterRemoved(waiters - {first}, id);
      WaiterRemoved(waiters - {id}, first);
      assert waiters - {first} - {id} == waiters - {id} - {first};
    }
  }

  lemma WaiterAdded(waiters: map<RequestId, Waiter>, id: RequestId, waiter: Waiter)
    requires id !in waiters
    ensures WaiterReplies(waiters[id := waiter]) == WaiterReplies(waiters) + ReplyOf(waiter)
  {
    hide WaiterReplies;
    WaiterRemoved(waiters[id := waiter], id);
    assert waiters[id := waiter] - {id} == waiters;
  }

  // ---- The invariant -------------------------------------------------------------------------

  function SetupIds(s: State): set<RequestId> {
    if s.setup.Some? then {s.setup.value.id} else {}
  }

  function StopReplies(s: State): seq<Token> {
    if s.phase.Halting? then s.phase.replies
    else if s.life.Ending? && s.life.how.Stopped? then s.life.how.replies
    else []
  }

  /** Every reply channel the supervisor holds and has not settled. */
  ghost function Held(s: State): multiset<Token> {
    (if s.setup.Some? then multiset{s.setup.value.reply} else multiset{})
    + WaiterReplies(s.waiters)
  }

  /** Conservation: what was received is settled, held, or in the running operation's `hand`. */
  ghost predicate Ledger(book: ReplyBook, held: multiset<Token>, hand: multiset<Token>) {
    && book.received == book.settled + held + hand
    && (forall reply :: book.received[reply] <= 1)
  }

  /** The requests written and not answered are those somebody waits for, and no others. */
  ghost predicate Accounts(book: RequestBook, waiting: set<RequestId>, setup: set<RequestId>,
                           abandoned: set<RequestId>, nextId: RequestId, gone: bool)
  {
    && book.answered <= book.written
    && (forall id <- book.written :: id < nextId)
    && (!gone ==>
      && book.written - book.answered == waiting + setup + abandoned
      && waiting !! setup
      && waiting !! abandoned
      && setup !! abandoned)
  }

  /** A hand-off's reply channel was received, and is settled once its user line is written. */
  ghost predicate Tracked(turns: TurnBook, replies: ReplyBook) {
    && (forall reply <- turns.handOffs :: replies.received[reply] > 0)
    && (forall reply <- turns.lines :: replies.received[reply] > 0 && !Open(replies, reply))
  }

  /** Past the mode stage: what will be sent is exactly what differs. */
  predicate Decided(setup: TurnSetup, mode: string, model: ModelRef, effort: Option<string>) {
    && mode == setup.settings.mode
    && (setup.modelChange.Some? || setup.effortChange.Some?)
    && setup.modelChange == (if setup.settings.model.Some? && setup.settings.model.value != model.model
                             then setup.settings.model else None)
    && setup.effortChange == (if setup.settings.effort.Some?
                                 && (setup.modelChange.Some? || setup.settings.effort != effort)
                              then setup.settings.effort else None)
  }

  /** A hand-off known to the trace: its requests so far are below `rank`, its budget is fixed. */
  predicate Known(turns: TurnBook, setup: TurnSetup, rank: int) {
    && setup.reply in turns.handOffs
    && turns.latest == Some(setup.reply)
    && setup.reply !in turns.lines
    && turns.handOffs[setup.reply].rank < rank
    && setup.budget == turns.handOffs[setup.reply].began + TURN_SETTINGS_BUDGET
    && (setup.settings.model.Some? ==> setup.settings.model.value == setup.model.model)
  }

  /** The hand-off in flight. */
  predicate Staged(turns: TurnBook, setup: TurnSetup, mode: string, model: ModelRef, effort: Option<string>) {
    && Known(turns, setup, Rank(setup.stage) + 1)
    && (setup.stage != Mode ==> Decided(setup, mode, model, effort))
  }

  predicate StopOk(book: EndBook, life: Life, phase: Phase, inFlight: bool, reaped: bool, idle: bool) {
    && book.reaped == reaped
    && (book.stdinClosed ==> book.stopping)
    && (life.Gone? <==> book.exited)
    && (phase.Halting? ==>
      && life == Looping
      && !inFlight
      && !idle
      && book.stopping
      && reaped == phase.reaped
      && (phase.stage.Draining? <==> book.stdinClosed))
    && (phase.Serving? && (life == Looping || life == Early) ==> !book.stopping && !reaped)
    && (life.Ending? ==>
      && phase.Serving?
      && (book.stopping <==> life.how.Stopped?)
      && (if life.how.Stopped? then !inFlight && reaped == life.how.reaped else !reaped))
    && (life == Early ==> phase.Serving? && !inFlight)
  }

  /** Since the loop top that found the child idle it was busy at none; since its last line it said
      nothing. */
  predicate QuietOk(book: QuietBook, lastLine: Instant, idleSince: Option<Instant>, clock: Instant) {
    && lastLine <= clock
    && LongAgo(book.lastLine, 0, lastLine)
    && LongAgo(book.lastBusy, 0, clock)
    && (idleSince.Some? ==>
          && idleSince.value <= clock
          && LongAgo(book.lastBusy, 0, idleSince.value)
          && idleSince.value in book.idleTops)
  }

  ghost predicate Good(s: State, hand: multiset<Token>) {
    var m := Summary(s.log);
    && m.ok
    && m.withdrawn == s.withdrawn
    && s.model.effort == s.effort
    && Ledger(m.replies, Held(s), hand)
    && Ledger(m.stops, multiset(StopReplies(s)), multiset{})
    && (s.life.Gone? ==> Held(s) == multiset{} && StopReplies(s) == [])
    && Accounts(m.requests, s.waiters.Keys, SetupIds(s), s.abandoned, s.nextId, s.life.Gone?)
    && Tracked(m.turns, m.replies)
    && (s.setup.Some? ==> Staged(m.turns, s.setup.value, s.mode, s.model, s.effort))
    && StopOk(m.ends, s.life, s.phase, s.setup.Some?, s.reaped, s.idleSince.Some?)
    && QuietOk(m.quiet, s.lastLine, s.idleSince, s.clock)
  }

  predicate Serves(s: State) {
    s.phase.Serving? && s.life == Looping
  }

  // ---- What one observation adds -------------------------------------------------------------

  lemma Sees(log: seq<Obs>, o: Obs)
    ensures Summary(log + [o]) == Observe(Summary(log), o)
  {
    assert (log + [o])[..|log|] == log;
  }

  /** Observations that only have to be allowed. */
  predicate Plain(o: Obs) {
    o.AskReinserted? || o.AskAnswered? || o.AskRecorded? || o.AskCleared? || o.AsksForgotten?
    || o.MapperWrote? || o.Published? || o.OutputDropped? || o.RoutePublished? || o.RouteLeft?
    || o.RoutesCooled? || o.ReapCancelled? || o.EntrySynced? || o.EntryReleased? || o.EntryRemoved?
    || o.LineMapped? || o.StageDue? || o.Killed? || o.AsksDropped? || o.LogClosed? || o.Unmatched?
    || o.CompactLine? || o.Noticed?
    || (o.AskWithdrawn? && o.found.Some?)
    || (o.ControlSent? && !o.ok)
  }

  lemma SeesPlain(log: seq<Obs>, o: Obs)
    requires Summary(log).ok && Plain(o) && Allowed(Summary(log), o)
    ensures Summary(log + [o]) == Summary(log)
  {
    hide Summary;
    Sees(log, o);
  }

  lemma PlainKeeps(s: State, o: Obs, hand: multiset<Token>)
    requires Good(s, hand)
    requires Plain(o) && Allowed(Summary(s.log), o)
    ensures Good(Emit(s, o), hand)
  {
    hide Summary, Observe, Allowed, WaiterReplies, Ledger, Accounts, Tracked, Staged, StopOk, QuietOk;
    SeesPlain(s.log, o);
  }

  lemma SettleKeeps(s: State, reply: Token, outcome: Outcome, hand: multiset<Token>)
    requires Good(s, hand + multiset{reply})
    ensures Good(Settle(s, reply, outcome), hand)
  {
    hide Summary, WaiterReplies, Accounts, Staged, StopOk, QuietOk;
    Sees(s.log, Settled(reply, outcome));
  }

  /** Time passes and the mapper moves; nothing the invariant speaks of changes. */
  lemma FrameKeeps(s: State, after: State, hand: multiset<Token>)
    requires Good(s, hand)
    requires s.clock <= after.clock
    requires after == s.(clock := after.clock, mapper := after.mapper, interruptSent := after.interruptSent,
                         failed := after.failed, awaitingSince := after.awaitingSince,
                         commandsClosed := after.commandsClosed)
    ensures Good(after, hand)
  {
    hide Summary, WaiterReplies, Ledger, Accounts, Tracked, Staged, StopOk;
  }

  lemma ReceiveKeeps(s: State, c: Command, scene: Scene)
    requires Good(s, multiset{})
    requires Summary(s.log).replies.received[c.reply] == 0 && s.life == Looping
    ensures Good(Emit(s, Received(c, scene)), multiset{c.reply})
    ensures Summary(Emit(s, Received(c, scene)).log)
            == Summary(s.log).(replies := Summary(s.log).replies.(
                 received := Summary(s.log).replies.received + multiset{c.reply}))
  {
    hide Summary, WaiterReplies, Accounts, Staged, QuietOk;
    Sees(s.log, Received(c, scene));
  }

  // ---- Control requests ----------------------------------------------------------------------

  lemma SeesSent(log: seq<Obs>, id: RequestId, what: ControlKind, caller: Option<Token>, at: Instant)
    requires var m := Summary(log);
             m.ok && id !in m.requests.written && (what == StopInterrupt <==> m.ends.stopping) && !m.ends.stdinClosed
    ensures var m := Summary(log);
            Summary(log + [ControlSent(id, what, caller, at, true)]) == m.(requests := Write(m.requests, id, true))
  {
    hide Summary;
    Sees(log, ControlSent(id, what, caller, at, true));
  }

  lemma AccountsSent(book: RequestBook, waiting: set<RequestId>, setup: set<RequestId>,
                     abandoned: set<RequestId>, id: RequestId)
    requires Accounts(book, waiting, setup, abandoned, id, false)
    ensures id !in book.written && id !in waiting + setup + abandoned
    ensures Accounts(Write(book, id, true), waiting + {id}, setup, abandoned, id + 1, false)
    ensures Accounts(Write(book, id, true), waiting, {id}, abandoned, id + 1, false) || setup != {}
  {
    assert forall other <- waiting + setup + abandoned :: other in book.written;
  }

  /** A reply channel moves from the hand into what is held, or back. */
  lemma LedgerMoves(book: ReplyBook, held: multiset<Token>, hand: multiset<Token>, moved: multiset<Token>)
    ensures Ledger(book, held, hand + moved) <==> Ledger(book, held + moved, hand)
  {
    assert book.settled + held + (hand + moved) == book.settled + (held + moved) + hand;
  }

  lemma HeldWaiter(s: State, after: State, id: RequestId, waiter: Waiter)
    requires id !in s.waiters
    requires after.waiters == s.waiters[id := waiter]
    requires after.setup == s.setup
    ensures Held(after) == Held(s) + ReplyOf(waiter)
    ensures after.waiters.Keys == s.waiters.Keys + {id}
  {
    hide WaiterReplies;
    WaiterAdded(s.waiters, id, waiter);
  }

  lemma SentKeeps(s: State, what: ControlKind, waiter: Waiter, caller: Option<Token>, w: World, hand: multiset<Token>)
    requires w.writeOk
    requires Good(s, hand + ReplyOf(waiter))
    requires !s.life.Gone?
    requires (what == StopInterrupt <==> Summary(s.log).ends.stopping) && !Summary(s.log).ends.stdinClosed
    ensures var sent := SendControl(s, what, caller, w);
            Good(sent.(waiters := sent.waiters[s.nextId := waiter]), hand)
  {
    hide Summary, Observe, Allowed, Held, Ledger, Accounts, Tracked, Staged, StopOk, ReplyOf;
    AccountsSent(Summary(s.log).requests, s.waiters.Keys, SetupIds(s), s.abandoned, s.nextId);
    SeesSent(s.log, s.nextId, what, caller, s.clock + w.writing);
    var sent := SendControl(s, what, caller, w);
    HeldWaiter(s, sent.(waiters := sent.waiters[s.nextId := waiter]), s.nextId, waiter);
    LedgerMoves(Summary(s.log).replies, Held(s), hand, ReplyOf(waiter));
  }

  lemma ServingFacts(s: State, hand: multiset<Token>)
    requires Good(s, hand) && Serves(s)
    ensures Summary(s.log).ok
    ensures Summary(s.log).ends == EndBook(false, false, false, false) && !s.reaped
    ensures forall id <- Summary(s.log).requests.written :: id < s.nextId
  {
    hide Summary, WaiterReplies, Ledger, Tracked, Staged, QuietOk;
  }

  lemma SendAwaitedKeeps(s: State, what: ControlKind, waiter: Waiter, reply: Token, w: World)
    requires Good(s, multiset{reply})
    requires Serves(s)
    requires what != StopInterrupt
    requires ReplyOf(waiter) == multiset{reply}
    ensures Good(SendAwaited(s, what, waiter, reply, w).state, multiset{})
  {
    hide Good, Summary, Observe;
    ServingFacts(s, multiset{reply});
    assert multiset{} + multiset{reply} == multiset{reply};
    if w.writeOk {
      SentKeeps(s, what, waiter, Some(reply), w, multiset{});
    } else {
      var waited := Passed(s, w.writing).(nextId := s.nextId + 1);
      NextIdKeeps(s, waited, multiset{reply});
      PlainKeeps(waited, ControlSent(s.nextId, what, Some(reply), s.clock + w.writing, false), multiset{reply});
      SettleKeeps(SendControl(s, what, Some(reply), w), reply, Failed(WriteFailed), multiset{});
    }
  }

  lemma NextIdKeeps(s: State, after: State, hand: multiset<Token>)
    requires Good(s, hand)
    requires s.clock <= after.clock && s.nextId <= after.nextId
    requires after == s.(clock := after.clock, nextId := after.nextId)
    ensures Good(after, hand)
  {
    hide Summary, WaiterReplies, Ledger, Tracked, Staged, StopOk;
  }

  // ---- Hand-offs -----------------------------------------------------------------------------

  lemma SeesSettingsSent(log: seq<Obs>, setup: TurnSetup, stage: SetupStage, id: RequestId, now: Instant,
                         ok: bool)
    requires var m := Summary(log);
             m.ok && Known(m.turns, setup, Rank(stage)) && id !in m.requests.written && !m.ends.stopping
    ensures var m := Summary(log);
            Summary(log + [SettingsSent(setup.reply, stage, WishOf(setup, stage), id, now,
                                        Min(now + CONTROL_TIMEOUT, setup.budget), setup.budget, ok)])
            == m.(turns := Advance(m.turns, setup.reply, stage), requests := Write(m.requests, id, ok))
  {
    hide Summary;
    Sees(log, SettingsSent(setup.reply, stage, WishOf(setup, stage), id, now,
                           Min(now + CONTROL_TIMEOUT, setup.budget), setup.budget, ok));
  }

  lemma HeldSetup(s: State, after: State, setup: TurnSetup)
    requires s.setup.None?
    requires after.setup == Some(setup)
    requires after.waiters == s.waiters
    ensures Held(after) == Held(s) + multiset{setup.reply}
    ensures SetupIds(s) == {} && SetupIds(after) == {setup.id}
  {
    hide WaiterReplies;
  }

  lemma AdvanceTracked(turns: TurnBook, replies: ReplyBook, reply: Token, stage: SetupStage)
    requires Tracked(turns, replies)
    ensures Tracked(Advance(turns, reply, stage), replies)
  {
  }

  /** A request of the hand-off in hand puts the hand-off in flight, or fails it. */
  lemma SendSetupKeeps(s: State, setup: TurnSetup, stage: SetupStage, w: World)
    requires Good(s, multiset{setup.reply})
    requires Serves(s) && s.setup.None?
    requires Known(Summary(s.log).turns, setup, Rank(stage))
    requires stage != Mode ==> Decided(setup, s.mode, s.model, s.effort)
    ensures Good(SendSetup(s, setup, stage, w).state, multiset{})
  {
    hide Summary, Observe, Allowed, Held, Ledger, Accounts, Tracked;
    var hand := multiset{setup.reply};
    ServingFacts(s, hand);
    var m := Summary(s.log);
    SeesSettingsSent(s.log, setup, stage, s.nextId, s.clock + w.writing, w.writeOk);
    AccountsSent(m.requests, s.waiters.Keys, {}, s.abandoned, s.nextId);
    AdvanceTracked(m.turns, m.replies, setup.reply, stage);
    var r := SendSetup(s, setup, stage, w);
    if w.writeOk {
      HeldSetup(s, r.state, r.state.setup.value);
      LedgerMoves(m.replies, Held(s), multiset{}, hand);
      assert multiset{} + hand == hand;
    } else {
      SendSetupFails(s, setup, stage, w);
    }
  }

  lemma SendSetupFails(s: State, setup: TurnSetup, stage: SetupStage, w: World)
    requires !w.writeOk
    requires Good(s, multiset{setup.reply})
    requires Serves(s) && s.setup.None?
    requires Known(Summary(s.log).turns, setup, Rank(stage))
    ensures Good(SendSetup(s, setup, stage, w).state, multiset{})
  {
    hide Summary, Observe, Allowed, WaiterReplies, Ledger, Accounts, Tracked, StopOk;
    var hand := multiset{setup.reply};
    ServingFacts(s, hand);
    var now := s.clock + w.writing;
    NextIdKeeps(s, Passed(s, w.writing).(nextId := s.nextId + 1), hand);
    var waited := Passed(s, w.writing).(nextId := s.nextId + 1);
    SeesSettingsSent(s.log, setup, stage, s.nextId, now, false);
    AdvanceTracked(Summary(s.log).turns, Summary(s.log).replies, setup.reply, stage);
    var sent := Emit(waited, SettingsSent(setup.reply, stage, WishOf(setup, stage), s.nextId, now,
                                          Min(now + CONTROL_TIMEOUT, setup.budget), setup.budget, false));
    assert multiset{} + hand == hand;
    SettleKeeps(sent, setup.reply, Failed(WriteFailed), multiset{});
  }

  lemma SeesAnswered(log: seq<Obs>, id: RequestId, payload: Payload, scene: Scene)
    requires var m := Summary(log); m.ok && id in m.requests.written && id !in m.requests.answered
    ensures var m := Summary(log);
            Summary(log + [Answered(id, payload, scene)])
            == m.(requests := m.requests.(answered := m.requests.answered + {id}))
  {
    hide Summary;
    Sees(log, Answered(id, payload, scene));
  }

  /** An answered request leaves exactly the account it was in. */
  lemma AccountsAnswered(book: RequestBook, waiting: set<RequestId>, setup: set<RequestId>,
                         abandoned: set<RequestId>, nextId: RequestId, id: RequestId)
    requires Accounts(book, waiting, setup, abandoned, nextId, false)
    requires id in waiting + setup + abandoned
    ensures id in book.written && id !in book.answered
    ensures Accounts(book.(answered := book.answered + {id}), waiting - {id}, setup - {id}, abandoned - {id},
                     nextId, false)
  {
    assert id in book.written - book.answered;
    assert book.written - (book.answered + {id}) == (waiting - {id}) + (setup - {id}) + (abandoned - {id});
  }

  /** The answer to the in-flight request takes its hand-off in hand. */
  lemma TakeAnsweredKeeps(s: State, payload: Payload, scene: Scene, hand: multiset<Token>)
    requires s.setup.Some? && Serves(s)
    requires Good(s, hand)
    ensures var setup := s.setup.value;
            var taken := Emit(s.(setup := None), Answered(setup.id, payload, scene));
            && Good(taken, hand + multiset{setup.reply})
            && Staged(Summary(taken.log).turns, setup, s.mode, s.model, s.effort)
  {
    hide Summary, Observe, Allowed, Held, Ledger, Accounts, Tracked, Staged;
    var setup := s.setup.value;
    var m := Summary(s.log);
    AccountsAnswered(m.requests, s.waiters.Keys, {setup.id}, s.abandoned, s.nextId, setup.id);
    TakenAccounts(m.requests, s.waiters.Keys, s.abandoned, s.nextId, setup.id);
    SeesAnswered(s.log, setup.id, payload, scene);
    HeldSetup(s.(setup := None), s, setup);
    LedgerMoves(m.replies, Held(s.(setup := None)), hand, multiset{setup.reply});
    HeldSame(s.(setup := None), Emit(s.(setup := None), Answered(setup.id, payload, scene)));
  }

  lemma TakenAccounts(book: RequestBook, waiting: set<RequestId>, abandoned: set<RequestId>,
                      nextId: RequestId, id: RequestId)
    requires Accounts(book, waiting, {id}, abandoned, nextId, false)
    ensures waiting - {id} == waiting && abandoned - {id} == abandoned && {id} - {id} == {}
  {
  }

  lemma HeldSame(s: State, after: State)
    requires after.setup == s.setup && after.waiters == s.waiters
    ensures Held(after) == Held(s)
  {
  }

  /** Giving up on the in-flight request takes its hand-off in hand; its answer may still come. */
  lemma TakeAbandonedKeeps(s: State, hand: multiset<Token>)
    requires s.setup.Some? && Serves(s)
    requires Good(s, hand)
    ensures Good(s.(setup := None, abandoned := s.abandoned + {s.setup.value.id}),
                 hand + multiset{s.setup.value.reply})
  {
    hide Summary, Held, Ledger, Tracked, Staged;
    var setup := s.setup.value;
    var after := s.(setup := None, abandoned := s.abandoned + {setup.id});
    HeldSetup(after, s, setup);
    LedgerMoves(Summary(s.log).replies, Held(after), hand, multiset{setup.reply});
  }

  lemma HandOffBeganKeeps(s: State, reply: Token, hand: multiset<Token>)
    requires Good(s, hand) && Serves(s) && s.setup.None?
    requires hand[reply] > 0
    requires reply !in Summary(s.log).turns.handOffs
    ensures var began := Emit(s, HandOffBegan(reply, s.clock));
            && Good(began, hand)
            && Summary(began.log).turns
               == Summary(s.log).turns.(handOffs := Summary(s.log).turns.handOffs[reply := HandOff(s.clock, -1)],
                                        latest := Some(reply), since := {})
  {
    hide Summary, WaiterReplies, Accounts, Staged, QuietOk;
    Sees(s.log, HandOffBegan(reply, s.clock));
  }
}
