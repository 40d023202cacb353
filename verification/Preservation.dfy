/** Every operation of the supervisor keeps the invariant, and so does every run. */
module Preservation {
  import opened Protocol
  import opened Trace
  import opened Steps
  import opened Invariant

  // ---- The hand-off --------------------------------------------------------------------------

  lemma SeesTurnStarted(log: seq<Obs>, turn: TurnId)
    requires Summary(log).ok && !Summary(log).ends.stopping && !Summary(log).ends.reaped
    ensures var m := Summary(log);
            Summary(log + [TurnStarted(turn)])
            == m.(turns := m.turns.(begun := m.turns.begun + {turn}, since := m.turns.since + {turn}), withdrawn := {})
  {
    hide Summary;
    Sees(log, TurnStarted(turn));
  }

  lemma BeginTurnKeeps(s: State, turn: TurnId, notice: Option<string>, hand: multiset<Token>)
    requires Good(s, hand) && Serves(s) && s.setup.None?
    ensures var begun := BeginTurn(s, turn, notice);
            && Good(begun, hand)
            && Summary(begun.log).turns
               == Summary(s.log).turns.(begun := Summary(s.log).turns.begun + {turn},
                                        since := Summary(s.log).turns.since + {turn})
  {
    hide Summary, Observe, WaiterReplies, Ledger, Accounts, StopOk, QuietOk;
    ServingFacts(s, hand);
    SeesTurnStarted(s.log, turn);
    var begun := Publish(s.(withdrawn := {}, mapper := s.mapper.(active := Some(turn))), TurnStarted(turn));
    assert Good(begun, hand);
    if notice.Some? {
      SeesPlain(begun.log, Noticed(turn, notice.value));
      PlainKeeps(begun, Noticed(turn, notice.value), hand);
    }
  }

  lemma SeesUserLine(log: seq<Obs>, o: Obs)
    requires o.UserLine? && Summary(log).ok && Allowed(Summary(log), o)
    ensures var m := Summary(log);
            Summary(log + [o]) == m.(turns := m.turns.(lines := m.turns.lines + {o.reply}))
  {
    hide Summary;
    Sees(log, o);
  }

  lemma SeesSettled(log: seq<Obs>, reply: Token, outcome: Outcome)
    requires Summary(log).ok && Open(Summary(log).replies, reply)
    ensures var m := Summary(log);
            Summary(log + [Settled(reply, outcome)]) == m.(replies := SettleAll(m.replies, multiset{reply}))
  {
    hide Summary;
    Sees(log, Settled(reply, outcome));
  }

  /** Writing the user line of a hand-off settles it. */
  lemma UserLineKeeps(s: State, o: Obs, outcome: Outcome)
    requires o.UserLine?
    requires Good(s, multiset{o.reply}) && s.setup.None?
    requires Allowed(Summary(s.log), o)
    ensures Good(Settle(Emit(s, o), o.reply, outcome), multiset{})
  {
    hide Summary, Observe, Allowed, WaiterReplies, Accounts, StopOk, QuietOk;
    assert Open(Summary(s.log).replies, o.reply);
    SeesUserLine(s.log, o);
    SeesSettled(s.log + [o], o.reply, outcome);
  }

  lemma FinishKeeps(s: State, setup: TurnSetup, w: World)
    requires Good(s, multiset{setup.reply}) && Serves(s) && s.setup.None?
    requires Known(Summary(s.log).turns, setup, 4)
    requires SettingsHold(setup.settings, s.mode, s.model, s.effort)
    ensures Good(FinishTurnSetup(s, setup, w).state, multiset{})
  {
    hide Good, Summary, Observe;
    assert multiset{} + multiset{setup.reply} == multiset{setup.reply};
    if w.gaveUp {
      SettleKeeps(s, setup.reply, Dropped, multiset{});
    } else if s.mapper.active.Some? {
      SettleKeeps(s, setup.reply, Failed(ThreadBusy), multiset{});
    } else {
      var begun := BeginTurn(s, setup.turn, setup.notice);
      BeginTurnKeeps(s, setup.turn, setup.notice, multiset{setup.reply});
      FrameKeeps(begun, Passed(begun, w.writing), multiset{setup.reply});
      ServingFacts(begun, multiset{setup.reply});
      UserLineKeeps(Passed(begun, w.writing),
                    UserLine(setup.reply, setup.turn, setup.line, setup.settings, s.mode, s.model,
                             s.effort, s.mapper.active, HandOffs(s), w.writeOk),
                    Written(w));
    }
  }

  /** With no hand-off in flight, what the CLI holds is free to change. */
  lemma SettingsKeep(s: State, mode: string, model: ModelRef, effort: Option<string>, hand: multiset<Token>)
    requires Good(s, hand) && s.setup.None? && model.effort == effort
    ensures Good(s.(mode := mode, model := model, effort := effort), hand)
  {
    hide Summary, WaiterReplies, Ledger, Accounts, Tracked, StopOk, QuietOk;
  }

  lemma AfterModeKeeps(s: State, setup: TurnSetup, w: World)
    requires Good(s, multiset{setup.reply}) && Serves(s) && s.setup.None?
    requires s.model.effort == s.effort
    requires Known(Summary(s.log).turns, setup, 1)
    ensures Good(AfterMode(s, setup, w).state, multiset{})
  {
    hide Good, Summary, SendSetup, FinishTurnSetup;
    SettingsKeep(s, setup.settings.mode, s.model, s.effort, multiset{setup.reply});
    var settings := setup.settings;
    var modelChange :=
      if settings.model.Some? && settings.model.value != s.model.model then settings.model else None;
    var effortChange :=
      if settings.effort.Some? && (modelChange.Some? || settings.effort != s.effort)
      then settings.effort else None;
    var now := s.(mode := settings.mode);
    var decided := setup.(modelChange := modelChange, effortChange := effortChange);
    if modelChange.Some? {
      SendSetupKeeps(now, decided, Model, w);
    } else if effortChange.Some? {
      SendSetupKeeps(now, decided, Effort, w);
    } else {
      FinishKeeps(now, decided, w);
    }
  }

  lemma AdoptKeeps(s: State, setup: TurnSetup, payload: Payload, w: World, hand: multiset<Token>)
    requires Good(s, hand) && Serves(s) && s.setup.None? && payload.Success?
    ensures Good(Adopt(s, setup, payload, w), hand)
    ensures Summary(Adopt(s, setup, payload, w).log).turns == Summary(s.log).turns
  {
    hide Good, Summary, Observe;
    var model := (if setup.modelChange.Some? then setup.model else s.model).(effort := payload.appliedEffort);
    SettingsKeep(s, s.mode, model, payload.appliedEffort, hand);
    var held := s.(model := model, effort := payload.appliedEffort);
    ServingFacts(held, hand);
    if w.holdsEntry {
      SeesPlain(held.log, EntrySynced(model));
      PlainKeeps(held, EntrySynced(model), hand);
    }
  }

  lemma AfterReadBackKeeps(s: State, setup: TurnSetup, payload: Payload, w: World)
    requires Good(s, multiset{setup.reply}) && Serves(s) && s.setup.None? && payload.Success?
    requires Known(Summary(s.log).turns, setup, 4)
    requires Decided(setup, s.mode, s.model, s.effort)
    ensures Good(AfterReadBack(s, setup, payload, w).state, multiset{})
  {
    hide Good, Summary, Settle, FinishTurnSetup;
    var reply := setup.reply;
    assert multiset{} + multiset{reply} == multiset{reply};
    var wanted := WantedModel(s, setup);
    if !ModelApplied(s, setup, payload) {
      SettleKeeps(s, reply, Failed(WrongModel(payload.appliedModel, wanted)), multiset{});
    } else {
      var held := Adopt(s, setup, payload, w);
      AdoptKeeps(s, setup, payload, w, multiset{reply});
      if setup.effortChange.Some? && payload.appliedEffort != setup.effortChange {
        SettleKeeps(held, reply, Failed(EffortNotTaken(setup.effortChange.value, wanted)), multiset{});
      } else {
        FinishKeeps(held, setup, w);
      }
    }
  }

  lemma SetupResponseKeeps(s: State, payload: Payload, w: World)
    requires Good(s, multiset{}) && Serves(s) && s.setup.Some?
    ensures Good(OnSetupResponse(s, payload, w).state, multiset{})
  {
    hide Summary, WaiterReplies, Ledger, Accounts, Tracked, StopOk, QuietOk, SendSetup, AfterMode,
      AfterReadBack, Settle;
    var setup := s.setup.value;
    var taken := Emit(s.(setup := None), Answered(setup.id, payload, SceneOf(s, w)));
    TakeAnsweredKeeps(s, payload, SceneOf(s, w), multiset{});
    assert multiset{} + multiset{setup.reply} == multiset{setup.reply};
    if !payload.Success? {
      SettleKeeps(taken, setup.reply, Failed(StageRefused(setup.stage, payload)), multiset{});
    } else {
      match setup.stage
      case Mode => AfterModeKeeps(taken, setup, w);
      case Model => SendSetupKeeps(taken, setup, if setup.effortChange.Some? then Effort else ReadBack, w);
      case Effort => SendSetupKeeps(taken, setup, ReadBack, w);
      case ReadBack => AfterReadBackKeeps(taken, setup, payload, w);
    }
  }

  lemma SetupDeadlineKeeps(s: State)
    requires Good(s, multiset{}) && Serves(s)
    ensures Good(OnSetupDeadline(s), multiset{})
  {
    hide Good, Summary;
    if s.setup.Some? {
      var setup := s.setup.value;
      TakeAbandonedKeeps(s, multiset{});
      var waited := if setup.deadline >= setup.sent then setup.deadline - setup.sent else 0;
      SettleKeeps(s.(setup := None, abandoned := s.abandoned + {setup.id}), setup.reply,
                  Failed(TimedOut(setup.stage, waited)), multiset{});
    }
  }

  lemma NewHandOff(s: State, reply: Token, hand: multiset<Token>)
    requires Good(s, hand) && Serves(s) && s.setup.None? && hand[reply] > 0
    requires reply !in Summary(s.log).turns.handOffs
    ensures reply !in Summary(s.log).turns.lines
  {
    hide Summary, WaiterReplies, Accounts, Staged, StopOk, QuietOk;
    assert Open(Summary(s.log).replies, reply);
  }

  lemma BeginTurnSetupKeeps(s: State, c: Command, w: World)
    requires c.StartTurn? && FromFacade(c)
    requires Good(s, multiset{c.reply}) && Serves(s)
    requires c.reply !in Summary(s.log).turns.handOffs
    ensures Good(BeginTurnSetup(s, c, w).state, multiset{})
  {
    hide Good, Summary, SendSetup;
    assert multiset{} + multiset{c.reply} == multiset{c.reply};
    if w.gaveUp {
      SettleKeeps(s, c.reply, Dropped, multiset{});
    } else if s.mapper.active.Some? || s.setup.Some? {
      SettleKeeps(s, c.reply, Failed(ThreadBusy), multiset{});
    } else {
      var setup := TurnSetup(c.line, c.turn, c.model, c.settings, c.notice, c.reply, Mode, 0,
                             s.clock + TURN_SETTINGS_BUDGET, s.clock, s.clock, None, None);
      NewHandOff(s, c.reply, multiset{c.reply});
      HandOffBeganKeeps(s, c.reply, multiset{c.reply});
      SendSetupKeeps(Emit(s, HandOffBegan(c.reply, s.clock)), setup, Mode, w);
    }
  }

  // ---- Other commands ------------------------------------------------------------------------

  lemma SeesAskRefused(log: seq<Obs>, ask: AskId)
    requires Summary(log).ok && ask in Summary(log).withdrawn
    requires !Summary(log).ends.stopping && !Summary(log).ends.exited
    ensures var m := Summary(log);
            Summary(log + [AskRefused(ask)]) == m.(withdrawn := m.withdrawn - {ask})
  {
    hide Summary;
    Sees(log, AskRefused(ask));
  }

  lemma AskRefusedKeeps(s: State, ask: AskId, hand: multiset<Token>)
    requires Good(s, hand) && Serves(s) && ask in s.withdrawn
    ensures Good(Emit(s.(withdrawn := s.withdrawn - {ask}), AskRefused(ask)), hand)
  {
    hide Summary, Observe, Allowed, WaiterReplies, Ledger, Accounts, Tracked, Staged, StopOk, QuietOk;
    ServingFacts(s, hand);
    SeesAskRefused(s.log, ask);
  }

  lemma SeesAskRemembered(log: seq<Obs>, ask: AskId)
    requires Summary(log).ok && !Summary(log).ends.exited
    ensures var m := Summary(log);
            Summary(log + [AskWithdrawn(ask, None)]) == m.(withdrawn := m.withdrawn + {ask})
  {
    hide Summary;
    Sees(log, AskWithdrawn(ask, None));
  }

  lemma AskRememberedKeeps(s: State, ask: AskId, hand: multiset<Token>)
    requires Good(s, hand) && !s.life.Gone?
    ensures Good(Emit(s, AskWithdrawn(ask, None)).(withdrawn := s.withdrawn + {ask}), hand)
  {
    WithdrawnFacts(s, hand);
    hide Summary, Observe, Allowed, WaiterReplies, Ledger, Accounts, Tracked, Staged, StopOk, QuietOk;
    SeesAskRemembered(s.log, ask);
  }

  lemma WithdrawnFacts(s: State, hand: multiset<Token>)
    requires Good(s, hand)
    ensures Summary(s.log).ok && Summary(s.log).withdrawn == s.withdrawn
    ensures Summary(s.log).ends.reaped == s.reaped
    ensures Summary(s.log).ends.exited <==> s.life.Gone?
  {
    hide Summary, WaiterReplies, Ledger, Accounts, Tracked, Staged, QuietOk;
  }

  /** Publishing is always allowed: a reaped child's events are dropped. */
  lemma PublishKeeps(s: State, o: Obs, hand: multiset<Token>)
    requires Good(s, hand) && !s.life.Gone?
    requires o.AskCleared? || o.Published? || o.AskRecorded? || o.RoutePublished?
    ensures Good(Publish(s, o), hand)
  {
    hide Good, Summary, Observe;
    WithdrawnFacts(s, hand);
    PlainKeeps(s, if s.reaped then OutputDropped else o, hand);
  }

  lemma ApprovalKeeps(s: State, c: Command, w: World)
    requires c.RespondApproval? && Good(s, multiset{c.reply}) && Serves(s)
    ensures Good(RespondToApproval(s, c, w).state, multiset{})
  {
    hide Good, Summary, Observe;
    var hand := multiset{c.reply};
    assert multiset{} + hand == hand;
    ServingFacts(s, hand);
    WithdrawnFacts(s, hand);
    if c.ask in s.withdrawn {
      AskRefusedKeeps(s, c.ask, hand);
      SettleKeeps(Emit(s.(withdrawn := s.withdrawn - {c.ask}), AskRefused(c.ask)), c.reply,
                  Failed(Withdrawn), multiset{});
    } else if w.gaveUp || c.decision == ExecPolicyAmendment {
      PlainKeeps(s, AskReinserted(Approval, c.ask), hand);
      SettleKeeps(Emit(s, AskReinserted(Approval, c.ask)), c.reply,
                  if w.gaveUp then Dropped else Failed(UnsupportedDecision), multiset{});
    } else {
      var told := Passed(s.(interruptSent := s.interruptSent || c.decision == Cancel), w.writing);
      FrameKeeps(s, told, hand);
      PlainKeeps(told, AskAnswered(Approval, c.ask, Some(c.decision), w.writeOk), hand);
      SettleKeeps(Emit(told, AskAnswered(Approval, c.ask, Some(c.decision), w.writeOk)), c.reply, Written(w),
                  multiset{});
    }
  }

  lemma ServerRequestKeeps(s: State, c: Command, w: World)
    requires c.RespondServerRequest? && Good(s, multiset{c.reply}) && Serves(s)
    ensures Good(RespondToServerRequest(s, c, w).state, multiset{})
  {
    hide Good, Summary, Observe, Publish;
    var hand := multiset{c.reply};
    assert multiset{} + hand == hand;
    ServingFacts(s, hand);
    WithdrawnFacts(s, hand);
    if c.ask in s.withdrawn {
      AskRefusedKeeps(s, c.ask, hand);
      var refused := Emit(s.(withdrawn := s.withdrawn - {c.ask}), AskRefused(c.ask));
      PublishKeeps(refused, AskCleared(c.ask), hand);
      SettleKeeps(Publish(refused, AskCleared(c.ask)), c.reply, Failed(Withdrawn), multiset{});
    } else if w.gaveUp || !c.fits {
      PlainKeeps(s, AskReinserted(ServerRequest, c.ask), hand);
      SettleKeeps(Emit(s, AskReinserted(ServerRequest, c.ask)), c.reply,
                  if w.gaveUp then Dropped else Failed(UnfitAnswer), multiset{});
    } else {
      FrameKeeps(s, Passed(s, w.writing), hand);
      var wrote := Emit(Passed(s, w.writing), AskAnswered(ServerRequest, c.ask, None, w.writeOk));
      PlainKeeps(Passed(s, w.writing), AskAnswered(ServerRequest, c.ask, None, w.writeOk), hand);
      if w.writeOk {
        PublishKeeps(wrote, AskCleared(c.ask), hand);
        SettleKeeps(Publish(wrote, AskCleared(c.ask)), c.reply, Done, multiset{});
      } else {
        SettleKeeps(wrote, c.reply, Failed(WriteFailed), multiset{});
      }
    }
  }

  lemma CompactKeeps(s: State, c: Command, w: World)
    requires c.Compact? && Good(s, multiset{c.reply}) && Serves(s)
    ensures Good(CompactTurn(s, c, w).state, multiset{})
  {
    hide Good, Summary, Observe;
    var hand := multiset{c.reply};
    assert multiset{} + hand == hand;
    if w.gaveUp {
      SettleKeeps(s, c.reply, Dropped, multiset{});
    } else if s.mapper.active.Some? || s.setup.Some? {
      SettleKeeps(s, c.reply, Failed(ThreadBusy), multiset{});
    } else {
      var begun := BeginTurn(s, c.turn, c.notice);
      BeginTurnKeeps(s, c.turn, c.notice, hand);
      FrameKeeps(begun, Passed(begun, w.writing), hand);
      ServingFacts(begun, hand);
      var o := CompactLine(c.reply, c.turn, s.mapper.active, HandOffs(s), w.writeOk);
      PlainKeeps(Passed(begun, w.writing), o, hand);
      SettleKeeps(Emit(Passed(begun, w.writing), o), c.reply, Written(w), multiset{});
    }
  }

  lemma StopSubAgentKeeps(s: State, c: Command, w: World)
    requires c.StopTask? && Good(s, multiset{c.reply}) && Serves(s)
    ensures Good(StopSubAgent(s, c, w).state, multiset{})
  {
    hide Good, Summary, SendAwaited, Settle;
    assert multiset{} + multiset{c.reply} == multiset{c.reply};
    match w.task
    case NotYetStarted => SettleKeeps(s, c.reply, Failed(NotStarted), multiset{});
    case Ended => SettleKeeps(s, c.reply, Done, multiset{});
    case NoRoute => SettleKeeps(s, c.reply, Failed(NotARoute), multiset{});
    case Running => SendAwaitedKeeps(s, TaskStop, TaskWaiter(c.reply), c.reply, w);
  }

  lemma StopCommandKeeps(s: State, c: Command, w: World)
    requires c.StopBackgroundCommand? && Good(s, multiset{c.reply}) && Serves(s)
    ensures Good(StopCommand(s, c, w).state, multiset{})
  {
    hide Good, Summary, SendAwaited, Settle;
    assert multiset{} + multiset{c.reply} == multiset{c.reply};
    if w.command {
      SendAwaitedKeeps(s, CommandStop, UnitWaiter(c.reply), c.reply, w);
    } else {
      SettleKeeps(s, c.reply, Failed(NoBackgroundCommand), multiset{});
    }
  }

  lemma InterruptKeeps(s: State, c: Command, w: World)
    requires c.Interrupt? && Good(s, multiset{c.reply}) && Serves(s)
    ensures Good(InterruptTurn(s, c, w).state, multiset{})
  {
    hide Good, Summary, SendAwaited;
    SendAwaitedKeeps(s, UserInterrupt, UnitWaiter(c.reply), c.reply, w);
    var r := SendAwaited(s, UserInterrupt, UnitWaiter(c.reply), c.reply, w);
    FrameKeeps(r.state, r.state.(interruptSent := true), multiset{});
  }

  // ---- Stopping ------------------------------------------------------------------------------

  lemma SeesStopping(log: seq<Obs>, reason: StopReason, reply: Option<Token>, scene: Scene)
    requires Summary(log).ok && !Summary(log).ends.stopping
    ensures var m := Summary(log);
            Summary(log + [Trace.Stopping(reason, reply, scene)]) == m.(ends := m.ends.(stopping := true))
  {
    hide Summary;
    Sees(log, Trace.Stopping(reason, reply, scene));
  }

  lemma SeesStdinClosed(log: seq<Obs>, at: Instant)
    requires Summary(log).ok && Summary(log).ends.stopping && !Summary(log).ends.stdinClosed
    ensures var m := Summary(log);
            Summary(log + [StdinClosed(at)]) == m.(ends := m.ends.(stdinClosed := true))
  {
    hide Summary;
    Sees(log, StdinClosed(at));
  }

  lemma SeesStopJoined(log: seq<Obs>, reply: Token)
    requires var m := Summary(log);
             m.ok && m.stops.received[reply] == 0 && m.ends.stopping && !m.ends.exited
    ensures var m := Summary(log);
            Summary(log + [StopJoined(reply)])
            == m.(stops := m.stops.(received := m.stops.received + multiset{reply}))
  {
    hide Summary;
    Sees(log, StopJoined(reply));
  }

  /** A `Stop`'s reply channel not collected before. */
  predicate NewStop(s: State, reply: Option<Token>) {
    reply.Some? ==> Summary(s.log).stops.received[reply.value] == 0
  }

  /** The stop sequence is entered and has collected nobody yet. */
  function Halts(s: State, reason: StopReason, reply: Option<Token>, scene: Scene): State {
    Emit(s, Trace.Stopping(reason, reply, scene)).(
      idleSince := None, phase := Halting(reason, [], Interrupting(0, 0, 0), false))
  }

  lemma HaltedKeeps(s: State, reason: StopReason, reply: Option<Token>, scene: Scene)
    requires Good(s, multiset{}) && Serves(s) && s.setup.None?
    ensures Good(Halts(s, reason, reply, scene), multiset{})
    ensures Summary(Halts(s, reason, reply, scene).log).stops == Summary(s.log).stops
  {
    hide Summary, Observe, Allowed, WaiterReplies, Ledger, Accounts, Tracked, Staged;
    ServingFacts(s, multiset{});
    SeesStopping(s.log, reason, reply, scene);
    HeldSame(s, Halts(s, reason, reply, scene));
    assert StopReplies(s) == StopReplies(Halts(s, reason, reply, scene));
  }

  lemma EnteredKeeps(s: State, reason: StopReason, reply: Option<Token>, scene: Scene)
    requires Good(s, multiset{}) && Serves(s) && s.setup.None? && NewStop(s, reply)
    ensures Good(Entered(s, reason, reply, false, scene), multiset{})
  {
    hide Good, Summary;
    HaltedKeeps(s, reason, reply, scene);
    assert [] + Listed(reply) == Listed(reply);
    JoinKeeps(Halts(s, reason, reply, scene), reply);
  }

  lemma JoinKeeps(s: State, reply: Option<Token>)
    requires Good(s, multiset{}) && s.phase.Halting? && NewStop(s, reply)
    ensures Good(Collect(s, reply).(phase := s.phase.(replies := s.phase.replies + Listed(reply))), multiset{})
  {
    hide Summary, Observe, Allowed, WaiterReplies, Accounts, Tracked, Staged, QuietOk;
    HaltingFacts(s, multiset{});
    if reply.Some? {
      SeesStopJoined(s.log, reply.value);
    } else {
      assert s.phase.replies + [] == s.phase.replies;
    }
  }

  /** Stdin closes once, on the way from interrupting to draining. */
  lemma DrainKeeps(s: State)
    requires Good(s, multiset{})
    requires s.phase.Halting? && s.phase.stage.Interrupting?
    ensures Good(Drain(s), multiset{})
  {
    hide Summary, Observe, Allowed, WaiterReplies, Ledger, Accounts, Tracked, Staged, QuietOk;
    SeesStdinClosed(s.log, s.clock);
    HeldSame(s, Drain(s));
    assert StopReplies(Drain(s)) == StopReplies(s);
  }

  lemma InterruptingKeeps(s: State, stage: StopStage)
    requires Good(s, multiset{})
    requires s.phase.Halting? && s.phase.stage.Interrupting? && stage.Interrupting?
    ensures Good(s.(phase := s.phase.(stage := stage), interruptSent := true), multiset{})
  {
    hide Summary, WaiterReplies, Ledger, Accounts, Tracked, Staged, QuietOk;
    HeldSame(s, s.(phase := s.phase.(stage := stage), interruptSent := true));
    assert StopReplies(s.(phase := s.phase.(stage := stage))) == StopReplies(s);
  }

  lemma HaltingFacts(s: State, hand: multiset<Token>)
    requires Good(s, hand) && s.phase.Halting?
    ensures Summary(s.log).ok && Summary(s.log).ends.stopping
    ensures Summary(s.log).ends.stdinClosed <==> s.phase.stage.Draining?
    ensures s.life == Looping && s.setup.None? && s.reaped == s.phase.reaped
    ensures forall id <- Summary(s.log).requests.written :: id < s.nextId
  {
    hide Summary, WaiterReplies, Ledger, Tracked, Staged, QuietOk;
  }

  /** A stop's interrupt that could not be written changes only the clock. */
  lemma UnsentKeeps(s: State, w: World)
    requires !w.writeOk
    requires Good(s, multiset{}) && s.phase.Halting? && s.phase.stage.Interrupting?
    ensures Good(SendControl(s, StopInterrupt, None, w), multiset{})
  {
    hide Good, Summary, Observe;
    HaltingFacts(s, multiset{});
    var waited := Passed(s, w.writing).(nextId := s.nextId + 1);
    NextIdKeeps(s, waited, multiset{});
    PlainKeeps(waited, ControlSent(s.nextId, StopInterrupt, None, s.clock + w.writing, false), multiset{});
  }

  lemma StopInterruptKeeps(s: State, w: World, stage: StopStage)
    requires w.writeOk && stage.Interrupting?
    requires Good(s, multiset{}) && s.phase.Halting? && s.phase.stage.Interrupting?
    ensures var sent := SendControl(s, StopInterrupt, None, w);
            Good(sent.(waiters := sent.waiters[s.nextId := NobodyWaits], interruptSent := true,
                       phase := s.phase.(stage := stage)), multiset{})
  {
    hide Good, Summary, Observe, Allowed;
    HaltingFacts(s, multiset{});
    assert multiset{} + ReplyOf(NobodyWaits) == multiset{};
    SentKeeps(s, StopInterrupt, NobodyWaits, None, w, multiset{});
    var sent := SendControl(s, StopInterrupt, None, w);
    InterruptingKeeps(sent.(waiters := sent.waiters[s.nextId := NobodyWaits]), stage);
  }

  /** The stop sequence interrupts the live turn or closes stdin. */
  lemma ChooseStageKeeps(s: State, w: World)
    requires Good(s, multiset{}) && s.phase.Halting? && s.phase.stage.Interrupting?
    ensures Good(ChooseStage(s, w), multiset{})
  {
    hide Good, Summary, Drain;
    if s.mapper.active.None? {
      DrainKeeps(s);
    } else if w.writeOk {
      StopInterruptKeeps(s, w, Interrupting(s.mapper.active.value, s.nextId, s.clock + STOP_INTERRUPT_GRACE));
    } else {
      UnsentKeeps(s, w);
      DrainKeeps(SendControl(s, StopInterrupt, None, w));
    }
  }

  lemma AbandonSetupKeeps(s: State)
    requires Good(s, multiset{}) && Serves(s)
    ensures Good(AbandonSetup(s), multiset{})
    ensures Summary(AbandonSetup(s).log).stops == Summary(s.log).stops
  {
    hide Good, Summary, Observe, Allowed;
    if s.setup.Some? {
      var setup := s.setup.value;
      TakeAbandonedKeeps(s, multiset{});
      HandIsOpen(s.(setup := None, abandoned := s.abandoned + {setup.id}), setup.reply);
      SeesSettled(s.log, setup.reply, Failed(ChildStopping));
      SettleKeeps(s.(setup := None, abandoned := s.abandoned + {setup.id}), setup.reply,
                  Failed(ChildStopping), multiset{});
    }
  }

  lemma HandIsOpen(s: State, reply: Token)
    requires Good(s, multiset{} + multiset{reply})
    ensures Summary(s.log).ok && Open(Summary(s.log).replies, reply)
  {
    hide Summary, WaiterReplies, Accounts, Tracked, Staged, StopOk, QuietOk;
  }

  lemma EnterStoppingKeeps(s: State, reason: StopReason, reply: Option<Token>, w: World)
    requires Good(s, multiset{}) && s.life == Looping && NewStop(s, reply)
    ensures Good(EnterStopping(s, reason, reply, false, w), multiset{})
  {
    hide Good, Summary, ChooseStage;
    if Halted(s) {
      JoinKeeps(s, reply);
    } else {
      AbandonSetupKeeps(s);
      EnteredKeeps(AbandonSetup(s), reason, reply, SceneOf(s, w));
      ChooseStageKeeps(Entered(AbandonSetup(s), reason, reply, false, SceneOf(s, w)), w);
    }
  }

  // ---- Commands from the queue ---------------------------------------------------------------

  lemma NoHandOffYet(s: State, reply: Token)
    requires Good(s, multiset{}) && Summary(s.log).replies.received[reply] == 0
    ensures reply !in Summary(s.log).turns.handOffs
  {
    hide Summary, WaiterReplies, Ledger, Accounts, Staged, StopOk, QuietOk;
  }

  lemma HandleCommandKeeps(s: State, c: Command, w: World)
    requires Good(s, multiset{c.reply}) && Serves(s) && FromFacade(c) && !c.Stop?
    requires c.reply !in Summary(s.log).turns.handOffs
    ensures Good(HandleCommand(s, c, w).state, multiset{})
  {
    hide Good, Summary, BeginTurnSetup, InterruptTurn, SendAwaited, RespondToApproval, RespondToServerRequest,
      StopSubAgent, StopCommand, CompactTurn, EnterStopping;
    match c
    case StartTurn(_, _, _, _, _, _) => BeginTurnSetupKeeps(s, c, w);
    case Interrupt(_) => InterruptKeeps(s, c, w);
    case Control(reply) => SendAwaitedKeeps(s, PlainControl, ValueWaiter(reply), reply, w);
    case RespondApproval(_, _, _) => ApprovalKeeps(s, c, w);
    case RespondServerRequest(_, _, _) => ServerRequestKeeps(s, c, w);
    case StopTask(_) => StopSubAgentKeeps(s, c, w);
    case StopBackgroundCommand(_) => StopCommandKeeps(s, c, w);
    case Compact(_, _, _) => CompactKeeps(s, c, w);
  }

  lemma ServedKeeps(s: State, c: Command, w: World)
    requires Good(s, multiset{}) && s.life == Looping && FreshCommand(s, Some(c)) && !c.Stop?
    ensures Good(OnCommand(s, Some(c), w).state, multiset{})
  {
    hide Good, Summary, Observe, HandleCommand;
    var received := Emit(s, Received(c, SceneOf(s, w)));
    NoHandOffYet(s, c.reply);
    ReceiveKeeps(s, c, SceneOf(s, w));
    assert multiset{} + multiset{c.reply} == multiset{c.reply};
    if Halted(s) {
      SettleKeeps(received, c.reply, Failed(ChildStopped), multiset{});
    } else {
      HandleCommandKeeps(received, c, w);
    }
  }

  lemma OnCommandKeeps(s: State, command: Option<Command>, w: World)
    requires Good(s, multiset{}) && s.life == Looping && FreshCommand(s, command)
    ensures Good(OnCommand(s, command, w).state, multiset{})
  {
    hide Good, Summary, HandleCommand, EnterStopping;
    match command
    case None =>
      var closed := s.(commandsClosed := true);
      FrameKeeps(s, closed, multiset{});
      if !Halted(s) {
        EnterStoppingKeeps(closed, HarnessDropped, None, w);
      }
    case Some(Stop(reply)) => EnterStoppingKeeps(s, StopAsked, Some(reply), w);
    case Some(c) => ServedKeeps(s, c, w);
  }

  // ---- Frames --------------------------------------------------------------------------------

  /** A waiter's answer takes its reply channel in hand. */
  lemma TakeWaiterKeeps(s: State, id: RequestId, payload: Payload, scene: Scene)
    requires Good(s, multiset{}) && id in s.waiters && !s.life.Gone?
    ensures Good(Emit(s.(waiters := s.waiters - {id}), Answered(id, payload, scene)), ReplyOf(s.waiters[id]))
  {
    hide Summary, Observe, Allowed, Held, Ledger, Accounts, Tracked, Staged, StopOk, QuietOk, ReplyOf;
    var m := Summary(s.log);
    AccountsAnswered(m.requests, s.waiters.Keys, SetupIds(s), s.abandoned, s.nextId, id);
    AccountsWaiting(m.requests, s.waiters.Keys, SetupIds(s), s.abandoned, s.nextId, id);
    SeesAnswered(s.log, id, payload, scene);
    var after := Emit(s.(waiters := s.waiters - {id}), Answered(id, payload, scene));
    assert after.waiters.Keys == s.waiters.Keys - {id};
    assert s.waiters == after.waiters[id := s.waiters[id]];
    HeldWaiter(after, s, id, s.waiters[id]);
    LedgerMoves(m.replies, Held(after), multiset{}, ReplyOf(s.waiters[id]));
    assert multiset{} + ReplyOf(s.waiters[id]) == ReplyOf(s.waiters[id]);
  }

  lemma AccountsWaiting(book: RequestBook, waiting: set<RequestId>, setup: set<RequestId>,
                        abandoned: set<RequestId>, nextId: RequestId, id: RequestId)
    requires Accounts(book, waiting, setup, abandoned, nextId, false) && id in waiting
    ensures setup - {id} == setup && abandoned - {id} == abandoned
  {
  }

  lemma AccountsLate(book: RequestBook, waiting: set<RequestId>, setup: set<RequestId>,
                     abandoned: set<RequestId>, nextId: RequestId, id: RequestId)
    requires Accounts(book, waiting, setup, abandoned, nextId, false) && id in abandoned
    ensures setup - {id} == setup && waiting - {id} == waiting
  {
  }

  lemma LateAnswerKeeps(s: State, id: RequestId, payload: Payload, scene: Scene)
    requires Good(s, multiset{}) && id in s.abandoned && !s.life.Gone?
    ensures Good(Emit(s.(abandoned := s.abandoned - {id}), Answered(id, payload, scene)), multiset{})
  {
    hide Summary, Observe, Allowed, Held, Ledger, Accounts, Tracked, Staged, StopOk, QuietOk;
    var m := Summary(s.log);
    AccountsAnswered(m.requests, s.waiters.Keys, SetupIds(s), s.abandoned, s.nextId, id);
    AccountsLate(m.requests, s.waiters.Keys, SetupIds(s), s.abandoned, s.nextId, id);
    SeesAnswered(s.log, id, payload, scene);
    HeldSame(s, Emit(s.(abandoned := s.abandoned - {id}), Answered(id, payload, scene)));
  }

  /** "Nobody is waiting on" it: never written, or answered before. */
  lemma UnmatchedKeeps(s: State, id: RequestId)
    requires Good(s, multiset{}) && !s.life.Gone?
    requires id !in s.waiters && id !in s.abandoned && id !in SetupIds(s)
    ensures Good(Emit(s, Unmatched(id)), multiset{})
  {
    assert Summary(s.log).ok && Allowed(Summary(s.log), Unmatched(id)) by {
      hide Summary, WaiterReplies, Ledger, Tracked, Staged, StopOk, QuietOk;
      assert Accounts(Summary(s.log).requests, s.waiters.Keys, SetupIds(s), s.abandoned, s.nextId, false);
    }
    hide Good, Summary;
    PlainKeeps(s, Unmatched(id), multiset{});
  }

  lemma InFlightServes(s: State, hand: multiset<Token>)
    requires Good(s, hand) && s.setup.Some? && (s.life == Early || s.life == Looping)
    ensures Serves(s)
  {
    hide Summary, WaiterReplies, Ledger, Accounts, Tracked, Staged, QuietOk;
  }

  lemma ControlResponseKeeps(s: State, id: RequestId, payload: Payload, w: World)
    requires Good(s, multiset{}) && (s.life == Early || s.life == Looping)
    ensures Good(OnControlResponse(s, id, payload, w).state, multiset{})
  {
    hide Good, Summary, OnSetupResponse;
    if s.setup.Some? && s.setup.value.id == id {
      InFlightServes(s, multiset{});
      SetupResponseKeeps(s, payload, w);
    } else if id in s.waiters {
      var waiter := s.waiters[id];
      var taken := Emit(s.(waiters := s.waiters - {id}), Answered(id, payload, SceneOf(s, w)));
      TakeWaiterKeeps(s, id, payload, SceneOf(s, w));
      if !waiter.NobodyWaits? {
        assert multiset{} + ReplyOf(waiter) == multiset{waiter.reply};
        SettleKeeps(taken, waiter.reply, WaiterOutcome(waiter, payload), multiset{});
      }
    } else if id in s.abandoned {
      LateAnswerKeeps(s, id, payload, SceneOf(s, w));
    } else {
      UnmatchedKeeps(s, id);
    }
  }

  lemma CancelKeeps(s: State, ask: AskId, found: Option<AskKind>)
    requires Good(s, multiset{}) && !s.life.Gone?
    ensures Good(OnCancelRequest(s, ask, found), multiset{})
  {
    hide Good, Summary, Observe, Publish;
    WithdrawnFacts(s, multiset{});
    match found
    case None => AskRememberedKeeps(s, ask, multiset{});
    case Some(Approval) => PlainKeeps(s, AskWithdrawn(ask, found), multiset{});
    case Some(ServerRequest) =>
      PlainKeeps(s, AskWithdrawn(ask, found), multiset{});
      PublishKeeps(Emit(s, AskWithdrawn(ask, found)), AskCleared(ask), multiset{});
  }

  lemma DispatchKeeps(s: State, output: Output, w: World)
    requires Good(s, multiset{}) && (s.life == Early || s.life == Looping)
    ensures Good(Dispatch(s, output, w).state, multiset{})
  {
    hide Good, Summary, Observe, Publish, OnControlResponse, OnCancelRequest;
    WithdrawnFacts(s, multiset{});
    match output
    case Event => PublishKeeps(s, Published, multiset{});
    case Reply =>
      if s.reaped {
        PlainKeeps(s, OutputDropped, multiset{});
      } else {
        FrameKeeps(s, Passed(s, w.writing), multiset{});
        PlainKeeps(Passed(s, w.writing), MapperWrote(w.writeOk), multiset{});
      }
    case ControlResponse(id, payload) => ControlResponseKeeps(s, id, payload, w);
    case PendingAsk(kind, ask) => PublishKeeps(s, AskRecorded(kind, ask), multiset{});
    case CancelRequest(ask) => CancelKeeps(s, ask, w.pending);
    case RouteOpened(thread) => PublishKeeps(s, RoutePublished(thread), multiset{});
    case RouteReopened(thread) => PublishKeeps(s, RoutePublished(thread), multiset{});
    case RouteClosed(thread) =>
      PlainKeeps(s, RouteLeft(thread), multiset{});
      SeesPlain(s.log, RouteLeft(thread));
      PlainKeeps(Emit(s, RouteLeft(thread)), AsksForgotten(w.asks), multiset{});
  }

  /** Neither where the loop stands nor the stop sequence moved. */
  predicate Stays(s: State, after: State) {
    after.life == s.life && after.phase == s.phase && after.reaped == s.reaped
  }

  lemma FinishStays(s: State, setup: TurnSetup, w: World)
    ensures Stays(s, FinishTurnSetup(s, setup, w).state)
  {
  }

  lemma SendStays(s: State, setup: TurnSetup, stage: SetupStage, w: World)
    ensures Stays(s, SendSetup(s, setup, stage, w).state)
  {
  }

  lemma AfterModeStays(s: State, setup: TurnSetup, w: World)
    ensures Stays(s, AfterMode(s, setup, w).state)
  {
    hide FinishTurnSetup, SendSetup;
    forall now, setup, stage ensures Stays(now, SendSetup(now, setup, stage, w).state) {
      SendStays(now, setup, stage, w);
    }
    forall now, setup ensures Stays(now, FinishTurnSetup(now, setup, w).state) {
      FinishStays(now, setup, w);
    }
  }

  lemma AfterReadBackStays(s: State, setup: TurnSetup, payload: Payload, w: World)
    requires payload.Success?
    ensures Stays(s, AfterReadBack(s, setup, payload, w).state)
  {
    hide FinishTurnSetup, ModelApplied;
    FinishStays(Adopt(s, setup, payload, w), setup, w);
  }

  lemma SetupResponseStays(s: State, payload: Payload, w: World)
    requires s.setup.Some?
    ensures Stays(s, OnSetupResponse(s, payload, w).state)
  {
    hide AfterMode, AfterReadBack, SendSetup, StageRefused;
    var setup := s.setup.value;
    var taken := Emit(s.(setup := None), Answered(setup.id, payload, SceneOf(s, w)));
    if payload.Success? {
      match setup.stage
      case Mode => AfterModeStays(taken, setup, w);
      case Model => SendStays(taken, setup, if setup.effortChange.Some? then Effort else ReadBack, w);
      case Effort => SendStays(taken, setup, ReadBack, w);
      case ReadBack => AfterReadBackStays(taken, setup, payload, w);
    }
  }

  /** No frame ends the loop or moves the stop sequence. */
  lemma DispatchStays(s: State, output: Output, w: World)
    ensures Stays(s, Dispatch(s, output, w).state)
  {
    hide OnSetupResponse;
    if output.ControlResponse? && s.setup.Some? {
      SetupResponseStays(s, output.payload, w);
    }
  }

  lemma {:induction false} DispatchAllKeeps(s: State, outputs: seq<(Output, World)>)
    requires Good(s, multiset{}) && (s.life == Early || s.life == Looping)
    ensures Good(DispatchAll(s, outputs).state, multiset{})
    ensures var after := DispatchAll(s, outputs).state; after.life == s.life && after.phase == s.phase
    decreases |outputs|
  {
    hide Good, Dispatch;
    if outputs != [] {
      var first := Dispatch(s, outputs[0].0, outputs[0].1);
      DispatchKeeps(s, outputs[0].0, outputs[0].1);
      DispatchStays(s, outputs[0].0, outputs[0].1);
      if first.ok {
        DispatchAllKeeps(first.state, outputs[1..]);
      }
    }
  }

  // ---- The loop ------------------------------------------------------------------------------

  lemma SeesLoopTop(log: seq<Obs>, at: Instant, busy: Option<Busy>)
    requires Summary(log).ok
    ensures var m := Summary(log);
            Summary(log + [LoopTop(at, busy)])
            == m.(quiet := if busy.Some? then m.quiet.(lastBusy := Later(m.quiet.lastBusy, at))
                           else m.quiet.(idleTops := m.quiet.idleTops + {at}))
  {
    hide Summary;
    Sees(log, LoopTop(at, busy));
  }

  lemma TrackIdleKeeps(s: State, asks: bool)
    requires Good(s, multiset{}) && s.life == Looping
    ensures Good(TrackIdle(s, asks), multiset{})
  {
    hide Summary, Observe, Allowed, WaiterReplies, Ledger, Accounts, Tracked, Staged, BusyWith;
    if !Halted(s) {
      SeesLoopTop(s.log, s.clock, BusyWith(s, asks));
      HeldSame(s, TrackIdle(s, asks));
    }
  }

  lemma PolledKeeps(s: State, t: Steps.Turn)
    requires Good(s, multiset{}) && s.life == Looping
    ensures Good(Polled(s, t), multiset{})
    ensures Polled(s, t).life == Looping
    ensures Summary(Polled(s, t).log).replies == Summary(s.log).replies
    ensures Summary(Polled(s, t).log).stops == Summary(s.log).stops
  {
    hide Good, Summary, Observe, Allowed, BusyWith;
    TrackIdleKeeps(s, t.asks);
    WithdrawnFacts(s, multiset{});
    SeesLoopTop(s.log, s.clock, BusyWith(s, t.asks));
    FrameKeeps(TrackIdle(s, t.asks), Polled(s, t), multiset{});
  }

  lemma SeesLineRead(log: seq<Obs>, at: Instant)
    requires Summary(log).ok
    ensures var m := Summary(log);
            Summary(log + [LineRead(at)]) == m.(quiet := m.quiet.(lastLine := Later(m.quiet.lastLine, at)))
  {
    hide Summary;
    Sees(log, LineRead(at));
  }

  lemma LineReadKeeps(s: State)
    requires Good(s, multiset{})
    ensures Good(Emit(s.(lastLine := s.clock), LineRead(s.clock)), multiset{})
  {
    hide Summary, Observe, Allowed, WaiterReplies, Ledger, Accounts, Tracked, Staged, StopOk;
    SeesLineRead(s.log, s.clock);
    HeldSame(s, Emit(s.(lastLine := s.clock), LineRead(s.clock)));
  }

  lemma FinishInterruptingKeeps(s: State)
    requires Good(s, multiset{})
    ensures Good(FinishInterrupting(s), multiset{})
  {
    hide Good, Summary;
    if s.phase.Halting? && s.phase.stage.Interrupting? {
      DrainKeeps(s);
    }
  }

  lemma HeldAtEnd(s: State, otherwise: Steps.Ending)
    requires !otherwise.Stopped? && !s.life.Ending?
    ensures Held(End(s, otherwise)) == Held(s) && StopReplies(End(s, otherwise)) == StopReplies(s)
  {
    assert StopReplies(End(s, otherwise)) == StopReplies(s);
  }

  lemma EndKeeps(s: State, otherwise: Steps.Ending)
    requires Good(s, multiset{}) && (s.life == Early || s.life == Looping) && !otherwise.Stopped?
    ensures Good(End(s, otherwise), multiset{})
  {
    hide Summary, Held, Ledger, Accounts, Tracked, Staged, QuietOk;
    HeldAtEnd(s, otherwise);
  }

  lemma BreakKeeps(s: State)
    requires Good(s, multiset{}) && (s.life == Early || s.life == Looping)
    ensures Good(Break(s), multiset{})
  {
    hide Good, Summary;
    FrameKeeps(s, s.(failed := true), multiset{});
    PlainKeeps(s.(failed := true), Killed(false, s.clock), multiset{});
    EndKeeps(Emit(s.(failed := true), Killed(false, s.clock)), Broken);
  }

  lemma DeadlineKeeps(s: State)
    requires Good(s, multiset{}) && s.life == Looping
    ensures Good(OnDeadline(s), multiset{})
  {
    hide Good, Summary, OnSetupDeadline, FinishInterrupting, End;
    var due := Emit(s, StageDue(s.clock));
    WithdrawnFacts(s, multiset{});
    PlainKeeps(s, StageDue(s.clock), multiset{});
    match s.phase
    case Serving => SetupDeadlineKeeps(due);
    case Halting(_, _, Interrupting(_, _, _), _) => FinishInterruptingKeeps(due);
    case Halting(_, _, Draining(_), _) =>
      HaltingFacts(due, multiset{});
      PlainKeeps(due, Killed(true, s.clock), multiset{});
      EndKeeps(Emit(due, Killed(true, s.clock)), Eof);
  }

  lemma AfterLineKeeps(s: State)
    requires Good(s, multiset{})
    ensures Good(AfterLine(s), multiset{})
  {
    hide Good, Summary, FinishInterrupting;
    WithdrawnFacts(s, multiset{});
    PlainKeeps(s, LineMapped(s.mapper.active, s.clock), multiset{});
    FinishInterruptingKeeps(Emit(s, LineMapped(s.mapper.active, s.clock)));
  }

  lemma LineKeeps(s: State, view: MapperView, outputs: seq<(Output, World)>)
    requires Good(s, multiset{}) && s.life == Looping
    ensures Good(OnLine(s, view, outputs), multiset{})
  {
    hide Good, Summary, DispatchAll, AfterLine, Break;
    var read := Emit(s.(lastLine := s.clock), LineRead(s.clock));
    LineReadKeeps(s);
    FrameKeeps(read, read.(mapper := view), multiset{});
    DispatchAllKeeps(read.(mapper := view), outputs);
    var r := Mapped(read, view, outputs);
    if r.ok {
      AfterLineKeeps(r.state);
    } else {
      BreakKeeps(r.state);
    }
  }

  lemma MappedKeeps(s: State, view: MapperView, outputs: seq<(Output, World)>)
    requires Good(s, multiset{}) && (s.life == Early || s.life == Looping)
    ensures Good(OrBreak(Mapped(s, view, outputs)), multiset{})
  {
    hide Good, Summary, DispatchAll, Break;
    FrameKeeps(s, s.(mapper := view), multiset{});
    DispatchAllKeeps(s.(mapper := view), outputs);
    var r := Mapped(s, view, outputs);
    if !r.ok {
      BreakKeeps(r.state);
    }
  }

  // ---- The reap ------------------------------------------------------------------------------

  /** When the idle arm can fire, the child has been idle and silent for the whole timeout and
      nothing is in hand. */
  predicate ReapDue(s: State) {
    && Serves(s)
    && s.setup.None?
    && s.waiters == map[]
    && s.mapper.active.None?
    && s.idleSince.Some?
    && s.idleTimeout.Some?
    && Max(s.idleSince.value, s.lastLine) + s.idleTimeout.value <= s.clock
  }

  lemma IdleTimerDue(s: State, t: Steps.Turn)
    requires t.input.IdleTimer? && Enabled(s, t)
    ensures ReapDue(Polled(s, t))
  {
    hide Summary, FreshCommand;
  }

  lemma SeesReaped(log: seq<Obs>, at: Instant, timeout: nat, reason: StopReason)
    requires var m := Summary(log);
             && m.ok && !m.ends.stopping && !m.ends.exited
             && LongAgo(m.quiet.lastLine, timeout, at) && LongAgo(m.quiet.lastBusy, timeout, at)
             && (exists top <- m.quiet.idleTops :: top + timeout <= at)
    ensures var m := Summary(log);
            Summary(log + [Reaped(at, timeout, 0, 0)]) == m.(ends := m.ends.(reaped := true))
  {
    hide Summary;
    Sees(log, Reaped(at, timeout, 0, 0));
  }

  lemma ReapedKeeps(s: State, scene: Scene)
    requires Good(s, multiset{}) && ReapDue(s)
    ensures Good(Entered(Emit(s.(reaped := true), Reaped(s.clock, s.idleTimeout.value, 0, 0)), Idle, None, true,
                         scene), multiset{})
  {
    hide Summary, Observe, Allowed, WaiterReplies, Ledger, Accounts, Tracked, Staged;
    ServingFacts(s, multiset{});
    SeesReaped(s.log, s.clock, s.idleTimeout.value, Idle);
    var reaped := Emit(s.(reaped := true), Reaped(s.clock, s.idleTimeout.value, 0, 0));
    SeesStopping(reaped.log, Idle, None, scene);
    HeldSame(s, Entered(reaped, Idle, None, true, scene));
    assert StopReplies(Entered(reaped, Idle, None, true, scene)) == StopReplies(s);
  }

  lemma ReapKeeps(s: State, queued: Option<Command>, w: World)
    requires Good(s, multiset{}) && ReapDue(s) && FreshCommand(s, queued)
    ensures Good(OrBreak(Reap(s, queued, w)), multiset{})
  {
    hide Good, Summary, OnCommand, ChooseStage, Break;
    var cooled := Emit(s, RoutesCooled);
    ServingFacts(s, multiset{});
    PlainKeeps(s, RoutesCooled, multiset{});
    SeesPlain(s.log, RoutesCooled);
    if !w.holdsEntry {
      EnterStoppingKeeps(cooled, StopAsked, None, w);
    } else if queued.Some? {
      var cancelled := Emit(cooled, ReapCancelled);
      PlainKeeps(cooled, ReapCancelled, multiset{});
      SeesPlain(cooled.log, ReapCancelled);
      OnCommandKeeps(cancelled, queued, w);
      OnCommandStays(cancelled, queued, w);
      if !OnCommand(cancelled, queued, w).ok {
        BreakKeeps(OnCommand(cancelled, queued, w).state);
      }
    } else {
      var released := Emit(cooled, EntryReleased(s.model));
      PlainKeeps(cooled, EntryReleased(s.model), multiset{});
      ReapedKeeps(released, SceneOf(s, w));
      var reaped := Emit(released.(reaped := true), Reaped(s.clock, s.idleTimeout.value, 0, 0));
      ChooseStageKeeps(Entered(reaped, Idle, None, true, SceneOf(s, w)), w);
    }
  }

  lemma EnterStoppingStays(s: State, reason: StopReason, reply: Option<Token>, reaped: bool, w: World)
    ensures EnterStopping(s, reason, reply, reaped, w).life == s.life
  {
    hide ChooseStage;
    if !Halted(s) {
      ChooseStageStays(Entered(AbandonSetup(s), reason, reply, reaped, SceneOf(s, w)), w);
    }
  }

  lemma ChooseStageStays(s: State, w: World)
    requires s.phase.Halting?
    ensures ChooseStage(s, w).life == s.life
  {
    hide Emit;
    LifeStays(s, StdinClosed(s.clock));
    var base := Passed(s, w.writing).(nextId := s.nextId + 1);
    var sent := SendControl(s, StopInterrupt, None, w);
    LifeStays(base, ControlSent(s.nextId, StopInterrupt, None, s.clock + w.writing, w.writeOk));
    LifeStays(sent, StdinClosed(sent.clock));
  }

  lemma LifeStays(s: State, o: Obs)
    ensures Emit(s, o).life == s.life
  {
  }

  lemma ApprovalStays(s: State, c: Command, w: World)
    requires c.RespondApproval?
    ensures RespondToApproval(s, c, w).state.life == s.life
  {
  }

  lemma ServerRequestStays(s: State, c: Command, w: World)
    requires c.RespondServerRequest?
    ensures RespondToServerRequest(s, c, w).state.life == s.life
  {
  }

  lemma CompactStays(s: State, c: Command, w: World)
    requires c.Compact?
    ensures CompactTurn(s, c, w).state.life == s.life
  {
  }

  lemma HandleCommandStays(s: State, c: Command, w: World)
    ensures HandleCommand(s, c, w).state.life == s.life
  {
    hide SendSetup, EnterStopping, RespondToApproval, RespondToServerRequest, CompactTurn;
    match c
    case RespondApproval(_, _, _) => ApprovalStays(s, c, w);
    case RespondServerRequest(_, _, _) => ServerRequestStays(s, c, w);
    case Compact(_, _, _) => CompactStays(s, c, w);
    case StartTurn(line, turn, model, settings, notice, reply) =>
      var setup := TurnSetup(line, turn, model, settings, notice, reply, Mode, 0,
                             s.clock + TURN_SETTINGS_BUDGET, s.clock, s.clock, None, None);
      SendStays(Emit(s, HandOffBegan(reply, s.clock)), setup, Mode, w);
    case Stop(reply) => EnterStoppingStays(s, StopAsked, Some(reply), false, w);
    case _ =>
  }

  /** No command by itself ends the loop. */
  lemma OnCommandStays(s: State, command: Option<Command>, w: World)
    ensures OnCommand(s, command, w).state.life == s.life
  {
    hide HandleCommand, EnterStopping;
    match command
    case None => EnterStoppingStays(s.(commandsClosed := true), HarnessDropped, None, false, w);
    case Some(c) =>
      EnterStoppingStays(s, StopAsked, Some(c.reply), false, w);
      HandleCommandStays(Emit(s, Received(c, SceneOf(s, w))), c, w);
  }
}