/** The end of a supervisor, and what holds of every run from its spawn on. */
module Safety {
  import opened Protocol
  import opened Trace
  import opened Steps
  import opened Invariant
  import opened Preservation

  // ---- Exit handling -------------------------------------------------------------------------

  /** What exit handling keeps: `owed` are the reply channels still to be settled, `stops` the
      collected stops still to be answered. */
  ghost predicate Closing(s: State, owed: multiset<Token>, stops: multiset<Token>, exited: bool) {
    var m := Summary(s.log);
    && m.ok
    && m.withdrawn == s.withdrawn
    && s.model.effort == s.effort
    && Ledger(m.replies, owed, multiset{})
    && Ledger(m.stops, stops, multiset{})
    && Accounts(m.requests, {}, {}, {}, s.nextId, true)
    && Tracked(m.turns, m.replies)
    && m.ends == EndBook(m.ends.stopping, m.ends.stdinClosed, s.reaped, exited)
    && (m.ends.stdinClosed ==> m.ends.stopping)
    && QuietOk(m.quiet, s.lastLine, s.idleSince, s.clock)
    && s.setup.None?
    && s.life.Ending?
    && s.phase.Serving?
  }

  /** The stops to be answered when the loop ends. */
  ghost function Stops(s: State): multiset<Token> {
    multiset(StopReplies(s))
  }

  lemma PlainCloses(s: State, o: Obs, owed: multiset<Token>, stops: multiset<Token>)
    requires Closing(s, owed, stops, false)
    requires Plain(o) && Allowed(Summary(s.log), o)
    ensures Closing(Emit(s, o), owed, stops, false)
  {
    hide Summary, Observe, Allowed, Ledger, Accounts, Tracked, QuietOk;
    SeesPlain(s.log, o);
  }

  lemma FailSetupCloses(s: State)
    requires Good(s, multiset{}) && s.life.Ending?
    ensures Closing(FailSetup(s), WaiterReplies(s.waiters), Stops(s), false)
    ensures var after := FailSetup(s);
            after.life == s.life && after.waiters == s.waiters && after.reaped == s.reaped
  {
    hide Summary, Observe, Allowed, WaiterReplies, Staged, QuietOk;
    if s.setup.Some? {
      SeesSettled(s.log, s.setup.value.reply, Failed(ChildStopped));
    }
  }

  lemma ClosingFacts(s: State, owed: multiset<Token>, stops: multiset<Token>, exited: bool)
    requires Closing(s, owed, stops, exited)
    ensures Summary(s.log).ok && Summary(s.log).ends.reaped == s.reaped && Summary(s.log).ends.exited == exited
    ensures s.setup.None? && s.phase.Serving?
  {
    hide Summary, Ledger, Accounts, Tracked, QuietOk;
  }

  lemma PublishCloses(s: State, owed: multiset<Token>, stops: multiset<Token>)
    requires Closing(s, owed, stops, false)
    ensures Closing(Publish(s, Published), owed, stops, false)
  {
    hide Closing, Summary, Observe;
    ClosingFacts(s, owed, stops, false);
    PlainCloses(s, if s.reaped then OutputDropped else Published, owed, stops);
  }

  lemma PartCloses(s: State, parting: Parting, owed: multiset<Token>, stops: multiset<Token>)
    requires Closing(s, owed, stops, false)
    ensures var after := Part(s, parting);
            && Closing(after, owed, stops, false)
            && after.reaped == s.reaped && after.life == s.life && after.waiters == s.waiters
  {
    hide Closing, Summary, Observe;
    match parting
    case Said => PublishCloses(s, owed, stops);
    case Closed(thread, asks) =>
      PlainCloses(s, RouteLeft(thread), owed, stops);
      PlainCloses(Emit(s, RouteLeft(thread)), AsksForgotten(asks), owed, stops);
  }

  lemma {:induction false} PartAllCloses(s: State, partings: seq<Parting>, owed: multiset<Token>,
                                         stops: multiset<Token>)
    requires Closing(s, owed, stops, false)
    ensures var after := PartAll(s, partings);
            && Closing(after, owed, stops, false)
            && after.reaped == s.reaped && after.life == s.life && after.waiters == s.waiters
    decreases |partings|
  {
    hide Closing, Part;
    if partings != [] {
      PartCloses(s, partings[0], owed, stops);
      PartAllCloses(Part(s, partings[0]), partings[1..], owed, stops);
    }
  }

  lemma SeesWaitersFailed(log: seq<Obs>, replies: multiset<Token>)
    requires Summary(log).ok && Summary(log).replies.settled + replies <= Summary(log).replies.received
    ensures var m := Summary(log);
            Summary(log + [WaitersFailed(replies)]) == m.(replies := SettleAll(m.replies, replies))
  {
    hide Summary;
    Sees(log, WaitersFailed(replies));
  }

  lemma WaitersFailedCloses(s: State, failed: multiset<Token>, stops: multiset<Token>)
    requires Closing(s, failed, stops, false)
    ensures Closing(Emit(s.(waiters := map[]), WaitersFailed(failed)), multiset{}, stops, false)
  {
    hide Summary, Observe, Allowed, Accounts, QuietOk;
    SeesWaitersFailed(s.log, failed);
  }

  lemma SeesExitHandled(log: seq<Obs>)
    requires Summary(log).ok && !Summary(log).ends.exited
    ensures var m := Summary(log); Summary(log + [ExitHandled]) == m.(ends := m.ends.(exited := true))
  {
    hide Summary;
    Sees(log, ExitHandled);
  }

  lemma ExitHandledCloses(s: State, stops: multiset<Token>)
    requires Closing(s, multiset{}, stops, false)
    ensures Closing(Emit(s, ExitHandled), multiset{}, stops, true)
  {
    hide Summary, Observe, Allowed, Ledger, Accounts, Tracked, QuietOk;
    SeesExitHandled(s.log);
  }

  lemma EndingFacts(s: State)
    requires Good(s, multiset{}) && s.life.Ending?
    ensures s.reaped <==> WasReaped(s)
    ensures s.phase.Serving?
    ensures StopReplies(s) == if s.life.how.Stopped? then s.life.how.replies else []
  {
    hide Summary, WaiterReplies, Ledger, Accounts, Tracked, Staged, QuietOk;
  }

  lemma PartingsClose(s: State, partings: seq<Parting>, owed: multiset<Token>, stops: multiset<Token>)
    requires Closing(s, owed, stops, false)
    ensures var after := Emit(PartAll(s, partings), RoutesCooled);
            && Closing(after, owed, stops, false)
            && after.life == s.life && after.waiters == s.waiters && after.reaped == s.reaped
  {
    hide Closing, Summary, PartAll;
    PartAllCloses(s, partings, owed, stops);
    PlainCloses(PartAll(s, partings), RoutesCooled, owed, stops);
  }

  lemma EndThreadCloses(s: State, bye: Farewell, asks: set<AskId>)
    requires Good(s, multiset{}) && s.life.Ending?
    ensures var after := EndThread(s, bye, asks);
            && Closing(after, WaiterReplies(s.waiters), Stops(s), false)
            && after.life == s.life && after.waiters == s.waiters && after.reaped == s.reaped
  {
    hide Good, Closing, Summary, WaiterReplies, FailSetup, PartAll, Partings, Stops, WasReaped;
    var owed, stops := WaiterReplies(s.waiters), Stops(s);
    EndingFacts(s);
    FailSetupCloses(s);
    var freed := FailSetup(s);
    var partings := Partings(s, bye);
    if WasReaped(s) {
      PartingsClose(freed, partings, owed, stops);
    } else {
      ClosingFacts(freed, owed, stops, false);
      PlainCloses(freed, AsksDropped(asks), owed, stops);
      PartingsClose(Emit(freed, AsksDropped(asks)), partings, owed, stops);
      var cooled := Emit(PartAll(Emit(freed, AsksDropped(asks)), partings), RoutesCooled);
      ClosingFacts(cooled, owed, stops, false);
      PlainCloses(cooled, LogClosed, owed, stops);
    }
  }

  lemma OnExitCloses(s: State, bye: Farewell, w: World)
    requires Good(s, multiset{}) && s.life.Ending?
    ensures Closing(OnExit(s, bye, w), multiset{}, Stops(s), true)
    ensures OnExit(s, bye, w).waiters == map[] && OnExit(s, bye, w).life == s.life
  {
    hide Good, Closing, Summary, Observe, WaiterReplies, EndThread, Stops;
    EndThreadCloses(s, bye, w.asks);
    EndingFacts(s);
    var ended := EndThread(s, bye, w.asks);
    WaitersFailedCloses(ended, WaiterReplies(s.waiters), Stops(s));
    var failed := Emit(ended.(waiters := map[]), WaitersFailed(WaiterReplies(s.waiters)));
    if !WasReaped(s) && w.holdsEntry {
      ClosingFacts(failed, multiset{}, Stops(s), false);
      PlainCloses(failed, EntryRemoved, multiset{}, Stops(s));
      ExitHandledCloses(Emit(failed, EntryRemoved), Stops(s));
    } else {
      ExitHandledCloses(failed, Stops(s));
    }
  }

  lemma SeesStopAnswered(log: seq<Obs>, reply: Token)
    requires Summary(log).ok && Open(Summary(log).stops, reply) && Summary(log).ends.exited
    ensures var m := Summary(log);
            Summary(log + [StopAnswered(reply)]) == m.(stops := SettleAll(m.stops, multiset{reply}))
  {
    hide Summary;
    Sees(log, StopAnswered(reply));
  }

  lemma StopAnsweredCloses(s: State, reply: Token, rest: multiset<Token>)
    requires Closing(s, multiset{}, multiset{reply} + rest, true)
    ensures Closing(Emit(s, StopAnswered(reply)), multiset{}, rest, true)
  {
    hide Summary, Observe, Allowed, Accounts, Tracked, QuietOk;
    SeesStopAnswered(s.log, reply);
  }

  lemma {:induction false} AnswerStopsCloses(s: State, replies: seq<Token>)
    requires Closing(s, multiset{}, multiset(replies), true)
    ensures var after := AnswerStops(s, replies);
            && Closing(after, multiset{}, multiset{}, true)
            && after.waiters == s.waiters
    decreases |replies|
  {
    hide Closing;
    if replies != [] {
      assert replies == [replies[0]] + replies[1..];
      assert multiset(replies) == multiset{replies[0]} + multiset(replies[1..]);
      StopAnsweredCloses(s, replies[0], multiset(replies[1..]));
      AnswerStopsCloses(Emit(s, StopAnswered(replies[0])), replies[1..]);
    }
  }

  lemma ClosedIsGood(s: State)
    requires Closing(s, multiset{}, multiset{}, true) && s.waiters == map[]
    ensures Good(s.(life := Gone), multiset{})
  {
    hide Summary, Tracked, QuietOk;
    assert Held(s.(life := Gone)) == multiset{};
  }

  lemma FinishTaskKeeps(s: State, bye: Farewell, w: World)
    requires Good(s, multiset{}) && s.life.Ending?
    ensures Good(Finish(s, bye, w), multiset{})
  {
    hide Good, Closing, Summary, OnExit, AnswerStops;
    OnExitCloses(s, bye, w);
    EndingFacts(s);
    AnswerStopsCloses(OnExit(s, bye, w), StopReplies(s));
    ClosedIsGood(AnswerStops(OnExit(s, bye, w), StopReplies(s)));
  }

  // ---- Every step, every run -----------------------------------------------------------------

  lemma EarlyDone(s: State)
    requires Good(s, multiset{}) && s.life == Early
    ensures Good(s.(life := Looping), multiset{})
  {
    hide Summary, WaiterReplies, Ledger, Accounts, Tracked, Staged, QuietOk;
    assert Held(s.(life := Looping)) == Held(s);
  }

  lemma BodyKeeps(s: State, t: Steps.Turn)
    requires Good(s, multiset{}) && s.life == Looping
    requires t.input.IdleTimer? ==> ReapDue(s) && FreshCommand(s, t.input.queued)
    requires t.input.Queue? ==> FreshCommand(s, t.input.command)
    ensures Good(Body(s, t), multiset{})
  {
    hide Good, Summary, OnLine, OnCommand, EnterStopping, OnDeadline, OnNotificationTimer, Reap, End, Break;
    match t.input
    case Line(view, outputs) => LineKeeps(s, view, outputs);
    case StdoutEof => EndKeeps(s, Eof);
    case ReadError => BreakKeeps(s);
    case Queue(command) =>
      OnCommandKeeps(s, command, t.w);
      OnCommandStays(s, command, t.w);
      if !OnCommand(s, command, t.w).ok {
        BreakKeeps(OnCommand(s, command, t.w).state);
      }
    case ShutdownFlag =>
      EnterStoppingKeeps(s, Shutdown, None, t.w);
    case StageTimer => DeadlineKeeps(s);
    case NotificationTimer(view, outputs) => NotificationKeeps(s, view, outputs);
    case IdleTimer(queued) => ReapKeeps(s, queued, t.w);
    case _ =>
  }

  lemma NotificationKeeps(s: State, view: MapperView, outputs: seq<(Output, World)>)
    requires Good(s, multiset{}) && s.life == Looping
    ensures Good(OnNotificationTimer(s, view, outputs), multiset{})
  {
    hide Good, Summary, Mapped, Break;
    FrameKeeps(s, s.(awaitingSince := None), multiset{});
    MappedKeeps(s.(awaitingSince := None), view, outputs);
  }

  lemma StepKeeps(s: State, t: Steps.Turn)
    requires Good(s, multiset{})
    ensures Good(Step(s, t), multiset{})
  {
    hide Good, Summary, Observe, Allowed, Polled, Body, Mapped, OrBreak, Finish, FreshCommand, IdleDeadline,
      StageDeadline, NotificationDeadline;
    if Enabled(s, t) {
      match t.input
      case EarlyLine(view, outputs) => MappedKeeps(s, view, outputs);
      case EarlyLinesDone => EarlyDone(s);
      case ChildExited(bye) => FinishTaskKeeps(s, bye, t.w);
      case IdleTimer(queued) =>
        PolledKeeps(s, t);
        IdleTimerDue(s, t);
        StillFresh(s, Polled(s, t), queued);
        BodyKeeps(Polled(s, t), t);
      case Queue(command) =>
        PolledKeeps(s, t);
        StillFresh(s, Polled(s, t), command);
        BodyKeeps(Polled(s, t), t);
      case _ =>
        PolledKeeps(s, t);
        BodyKeeps(Polled(s, t), t);
    }
  }

  lemma StillFresh(s: State, polled: State, command: Option<Command>)
    requires FreshCommand(s, command) && Summary(polled.log).replies == Summary(s.log).replies
    requires Summary(polled.log).stops == Summary(s.log).stops
    ensures FreshCommand(polled, command)
  {
  }

  lemma {:induction false} RunKeeps(s: State, turns: seq<Steps.Turn>)
    requires Good(s, multiset{})
    ensures Good(Run(s, turns), multiset{})
    decreases |turns|
  {
    hide Good, Step;
    if turns != [] {
      StepKeeps(s, turns[0]);
      RunKeeps(Step(s, turns[0]), turns[1..]);
    }
  }

  lemma SpawnedIsGood(model: ModelRef, idleTimeout: Option<nat>, inherited: set<RequestId>,
                      firstId: RequestId, now: Instant, mapper: MapperView)
    requires forall id <- inherited :: id < firstId
    ensures Good(Spawned(model, idleTimeout, inherited, firstId, now, mapper), multiset{})
  {
    var s := Spawned(model, idleTimeout, inherited, firstId, now, mapper);
    assert Summary([]) == START;
    hide Summary;
    Sees([], Inherited(inherited, firstId, model));
    assert s.log == [] + [Inherited(inherited, firstId, model)];
    assert WaiterReplies(map[]) == multiset{};
  }

  /** How a supervisor may be handed its child. */
  datatype Spawn = Spawn(model: ModelRef, idleTimeout: Option<nat>, inherited: set<RequestId>,
                         firstId: RequestId, now: Instant, mapper: MapperView)

  function Born(spawn: Spawn): State {
    Spawned(spawn.model, spawn.idleTimeout, spawn.inherited, spawn.firstId, spawn.now, spawn.mapper)
  }

  /** Some spawn and some schedule of arms, frames, commands and failures leads here. */
  ghost predicate Reachable(s: State) {
    exists spawn: Spawn, turns: seq<Steps.Turn> ::
      (forall id <- spawn.inherited :: id < spawn.firstId) && s == Run(Born(spawn), turns)
  }

  lemma ReachableIsGood(s: State)
    requires Reachable(s)
    ensures Good(s, multiset{})
  {
    var spawn: Spawn, turns: seq<Steps.Turn> :|
      (forall id <- spawn.inherited :: id < spawn.firstId) && s == Run(Born(spawn), turns);
    hide Good, Run, Spawned;
    SpawnedIsGood(spawn.model, spawn.idleTimeout, spawn.inherited, spawn.firstId, spawn.now, spawn.mapper);
    RunKeeps(Born(spawn), turns);
  }
}
