/** The supervisor's loop seen through the asks alone: every step of `Steps` is a row of acts, and every
    run, with whatever calls come in between, a run of `Asks`. */
module AskProjection {
  import opened Protocol
  import opened Trace
  import opened Steps
  import opened Invariant
  import opened Safety
  import opened Sections
  import opened AskActs
  import opened Views
  import opened Frames
  import A = Asks
  import H = Harness

  // ---- Acts that lead on ---------------------------------------------------------------------

  /** The acts are possible one after the other, and lead to what `after` is. */
  predicate Leads(b: Core, acts: seq<Act>, after: State) {
    AllCan(b, acts) && Agrees(after, DoAll(b, acts))
  }

  lemma LeadsNowhere(b: Core, after: State)
    requires Agrees(after, b)
    ensures Leads(b, [], after)
  {
    hide Agrees;
  }

  lemma LeadsOnce(b: Core, act: Act, after: State)
    requires Can(b, act) && Agrees(after, DoOne(b, act))
    ensures Leads(b, [act], after)
  {
    hide Agrees, Can, DoOne;
    InOne(b, act);
  }

  lemma LeadsOn(b: Core, first: seq<Act>, between: State, rest: seq<Act>, after: State)
    requires Leads(b, first, between) && Leads(DoAll(b, first), rest, after)
    ensures Leads(b, first + rest, after)
  {
    hide Agrees, Can, DoOne;
    InTwo(b, first, rest);
  }

  lemma StopAct(b: Core)
    requires b.phase.Serving?
    ensures Can(b, Stops) && DoOne(b, Stops) == b.(phase := A.Stopping, handingOff := false)
  {
  }

  lemma EndAct(b: Core)
    requires b.phase.Serving? || b.phase.Stopping?
    ensures Can(b, Ends) && DoOne(b, Ends) == b.(phase := A.Over, handingOff := false)
  {
  }

  lemma DropAct(b: Core)
    requires b.phase.Over?
    ensures Can(b, Drops) && DoOne(b, Drops) == b.(phase := A.Gone)
  {
  }

  lemma ForgetAct(b: Core, asks: set<AskId>)
    ensures Can(b, Forgets(asks)) && DoOne(b, Forgets(asks)) == b
  {
  }

  lemma RecordAct(b: Core, ask: AskId)
    requires b.phase.Serving? || b.phase.Stopping?
    ensures Can(b, Records(ask)) && DoOne(b, Records(ask)) == b
  {
  }

  lemma FindAct(b: Core, ask: AskId, pending: bool)
    requires b.phase.Serving? || b.phase.Stopping?
    ensures Can(b, Finds(ask, pending))
    ensures DoOne(b, Finds(ask, pending)) == if pending then b else b.(withdrawn := b.withdrawn + {ask})
  {
  }

  lemma HandOverAct(b: Core, begins: bool)
    requires b.phase.Serving? && b.handingOff
    ensures Can(b, HandsOver(begins))
    ensures DoOne(b, HandsOver(begins))
         == if begins then b.(handingOff := false, withdrawn := {}) else b.(handingOff := false)
  {
  }

  lemma TakeAct(b: Core, act: Act)
    requires act.Takes? && (b.phase.Serving? || b.phase.Stopping?)
    ensures Can(b, act)
    ensures DoOne(b, act) == CoreOf(A.Serve(Own(b, act), act.gaveUp, act.fits, act.accepts, act.writes))
  {
    hide A.Serve;
  }

  lemma RefuseAct(b: Core, act: Act)
    requires act.Takes? && (b.phase.Stopping? || (b.phase.Serving? && act.command.Unrelated? && act.writes))
    ensures Can(b, act) && DoOne(b, act) == b
  {
  }

  // ---- Commands ------------------------------------------------------------------------------

  function Taken(s: State, c: Command, w: World, ok: bool): Act {
    Takes(Abstract(c), w.gaveUp, Fits(c), Accepts(s), ok)
  }

  const TAKES_STOP: Act := Takes(A.Unrelated, false, true, true, true)

  /** The acts of one command: it leaves the queue, and a stop begins the stop sequence. */
  function CommandActs(s: State, command: Option<Command>, w: World): seq<Act> {
    match command
    case None => if Halted(s) then [] else [Stops]
    case Some(Stop(_)) => [TAKES_STOP] + if Halted(s) then [] else [Stops]
    case Some(c) => [Taken(s, c, w, OnCommand(s, command, w).ok)]
  }

  lemma ServedAgrees(s: State, after: State, ok: bool, b: Core, c: Command, w: World)
    requires Agrees(s, b) && s.life.Looping? && s.phase.Serving?
    requires ServedAs(s, after, ok, c, w)
    ensures Leads(b, [Taken(s, c, w, ok)], if ok then after else Break(after))
  {
    var act := Taken(s, c, w, ok);
    var own := A.QUIET.(queue := [Abstract(c)], withdrawn := s.withdrawn, handingOff := s.setup.Some?,
                        written := Viewed(s.log).answers);
    AgreesPhase(s, b);
    TakeAct(b, act);
    OwnIs(s, b, act);
    hide Viewed, Break, Goes, A.Serve, Fits, Accepts, Abstract, DoOne, Own, Leads, Can, Agrees;
    var v := A.Serve(own, w.gaveUp, Fits(c), Accepts(s), ok);
    if ok {
      ServedOn(s, after, b, v);
      LeadsOnce(b, act, after);
    } else {
      ServedOver(s, after, b, v);
      LeadsOnce(b, act, Break(after));
    }
  }

  lemma OwnIs(s: State, b: Core, act: Act)
    requires Agrees(s, b) && s.life.Looping? && s.phase.Serving? && act.Takes?
    ensures Own(b, act) == A.QUIET.(queue := [act.command], withdrawn := s.withdrawn, handingOff := s.setup.Some?,
                                    written := Viewed(s.log).answers)
  {
    hide Viewed;
  }

  lemma ServedOn(s: State, after: State, b: Core, v: A.Books)
    requires Agrees(s, b) && s.life.Looping? && s.phase.Serving? && after.life == s.life && after.phase.Serving?
    requires v.phase.Serving? && after.withdrawn == v.withdrawn && after.setup.Some? == v.handingOff
    requires Viewed(after.log) == Viewed(s.log).(answers := v.written)
    ensures Agrees(after, CoreOf(v))
  {
    hide Viewed;
  }

  lemma ServedOver(s: State, after: State, b: Core, v: A.Books)
    requires Agrees(s, b) && s.life.Looping? && s.phase.Serving? && after.life == s.life && after.phase.Serving?
    requires v.phase.Over? && Viewed(after.log) == Viewed(s.log).(answers := v.written)
    ensures Agrees(Break(after), CoreOf(v))
  {
    BreakShowsNothing(after);
    hide Viewed, Break;
  }

  lemma CommandProjects(s: State, command: Option<Command>, w: World, b: Core)
    requires Agrees(s, b) && s.life.Looping?
    ensures Leads(b, CommandActs(s, command, w), OrBreak(OnCommand(s, command, w)))
  {
    hide Agrees, Emit, HandleCommand, EnterStopping, Break, Aside, ServedAs, Viewed, DoOne, Leads, Can;
    match command
    case None =>
      var closed := s.(commandsClosed := true);
      BesideAside(s, closed);
      KeepsAgreeing(s, closed, b);
      if Halted(s) {
        LeadsNowhere(b, closed);
      } else {
        StopProjects(closed, HarnessDropped, None, w, b);
      }
    case Some(c) =>
      if c.Stop? {
        StopCommandProjects(s, c.reply, w, b);
      } else {
        var received := Emit(s, Received(c, SceneOf(s, w)));
        EmitAside(s, s, Received(c, SceneOf(s, w)));
        EmitFields(s, Received(c, SceneOf(s, w)));
        KeepsAgreeing(s, received, b);
        if Halted(s) {
          var refused := Settle(received, c.reply, Failed(ChildStopped));
          SettleAside(received, c.reply, Failed(ChildStopped));
          KeepsAgreeing(received, refused, b);
          AgreesPhase(received, b);
          RefuseAct(b, Taken(s, c, w, true));
          LeadsOnce(b, Taken(s, c, w, true), refused);
        } else {
          var r := HandleCommand(received, c, w);
          CommandServed(received, c, w);
          ServedAgrees(received, r.state, r.ok, b, c, w);
        }
      }
  }

  lemma AgreesPhase(s: State, b: Core)
    requires Agrees(s, b)
    ensures b.phase == PhaseOf(s)
    ensures b.phase.Serving? || b.phase.Stopping? ==> b.handingOff == s.setup.Some?
  {
    hide Viewed;
  }

  lemma EmitFields(s: State, o: Obs)
    ensures var e := Emit(s, o);
            e.life == s.life && e.phase == s.phase && e.setup == s.setup && e.mapper == s.mapper
            && e.withdrawn == s.withdrawn && e.reaped == s.reaped
  {
  }

  // ---- Stopping ------------------------------------------------------------------------------

  lemma StopProjects(s: State, reason: StopReason, reply: Option<Token>, w: World, b: Core)
    requires Agrees(s, b) && s.life.Looping? && !Halted(s)
    ensures Leads(b, [Stops], EnterStopping(s, reason, reply, false, w))
  {
    hide EnterStopping, Viewed, CoreAgrees, Leads;
    StopLands(s, reason, reply, false, w, b);
  }

  /** The stop sequence begins, from where a stop may begin. */
  lemma StopLands(s: State, reason: StopReason, reply: Option<Token>, reaped: bool, w: World, b: Core)
    requires CoreAgrees(s, b) && s.life.Looping? && !Halted(s)
    requires Goes(Viewed(s.log).place, Trace.Stopping(reason, reply, SceneOf(s, w)))
             == At(if reaped then H.Reaped else H.Halting)
    ensures Leads(b, [Stops], EnterStopping(s, reason, reply, reaped, w))
  {
    var after := EnterStopping(s, reason, reply, reaped, w);
    StoppingShowsNothing(s, reason, reply, reaped, w);
    CoreServes(s, b);
    StopAct(b);
    hide EnterStopping, Viewed, Goes, Agrees, CoreAgrees, Leads, Can, DoOne;
    HaltedAgrees(s, after, Trace.Stopping(reason, reply, SceneOf(s, w)), reaped, b);
    LeadsOnce(b, Stops, after);
  }

  lemma CoreServes(s: State, b: Core)
    requires CoreAgrees(s, b) && s.life.Looping? && !Halted(s)
    ensures b.phase.Serving?
  {
    hide Viewed;
  }

  lemma HaltedAgrees(s: State, after: State, o: Obs, reaped: bool, b: Core)
    requires CoreAgrees(s, b) && s.life.Looping? && !Halted(s) && o.Stopping?
    requires Goes(Viewed(s.log).place, o) == At(if reaped then H.Reaped else H.Halting)
    requires after.life == s.life && after.phase.Halting? && after.phase.reaped == reaped
    requires after.setup.None? && after.withdrawn == s.withdrawn && Viewed(after.log) == Look(Viewed(s.log), o)
    ensures Agrees(after, b.(phase := A.Stopping, handingOff := false))
  {
    hide Viewed, Goes;
  }

  /** The stop sequence, entered: past serving, no hand-off, the withdrawals and answers as they were. */
  lemma StoppingShowsNothing(s: State, reason: StopReason, reply: Option<Token>, reaped: bool, w: World)
    requires !Halted(s)
    ensures var after := EnterStopping(s, reason, reply, reaped, w);
            && after.life == s.life && after.phase.Halting? && after.phase.reaped == reaped
            && after.setup.None? && after.withdrawn == s.withdrawn
            && Viewed(after.log) == Look(Viewed(s.log), Trace.Stopping(reason, reply, SceneOf(s, w)))
  {
    hide Emit, Viewed, ChooseStage, AbandonSetup, Entered;
    AbandonShowsNothing(s);
    EnteredShowsNothing(AbandonSetup(s), reason, reply, reaped, SceneOf(s, w));
    var entered := Entered(AbandonSetup(s), reason, reply, reaped, SceneOf(s, w));
    ChosenAside(entered, w);
    AsideFacts(entered, ChooseStage(entered, w));
  }

  lemma AsideFacts(s: State, after: State)
    requires Aside(s, after)
    ensures after.life == s.life && SameStop(s.phase, after.phase) && after.reaped == s.reaped
    ensures after.setup.Some? == s.setup.Some? && after.withdrawn == s.withdrawn
    ensures Viewed(after.log) == Viewed(s.log)
  {
  }

  lemma AbandonShowsNothing(s: State)
    ensures var after := AbandonSetup(s);
            && after.life == s.life && after.phase == s.phase && after.setup.None? && after.withdrawn == s.withdrawn
            && Viewed(after.log) == Viewed(s.log)
  {
    hide Emit, Viewed;
    if s.setup.Some? {
      var base := s.(setup := None, abandoned := s.abandoned + {s.setup.value.id});
      var o := Settled(s.setup.value.reply, Failed(ChildStopping));
      Adds(base, o);
    }
  }

  lemma EnteredShowsNothing(s: State, reason: StopReason, reply: Option<Token>, reaped: bool, scene: Scene)
    ensures var after := Entered(s, reason, reply, reaped, scene);
            && after.life == s.life && after.phase.Halting? && after.phase.reaped == reaped
            && after.setup == s.setup && after.withdrawn == s.withdrawn
            && Viewed(after.log) == Look(Viewed(s.log), Trace.Stopping(reason, reply, scene))
  {
    hide Emit, Viewed;
    Adds(s, Trace.Stopping(reason, reply, scene));
    if reply.Some? {
      Adds(Emit(s, Trace.Stopping(reason, reply, scene)), StopJoined(reply.value));
    }
  }

  lemma DrainAside(s: State)
    requires s.phase.Halting?
    ensures Aside(s, Drain(s))
  {
    hide Emit, Viewed, Aside;
    EmitAside(s, s, StdinClosed(s.clock));
    EmitFields(s, StdinClosed(s.clock));
    BesideAside(Emit(s, StdinClosed(s.clock)), Drain(s));
    AsideTwice(s, Emit(s, StdinClosed(s.clock)), Drain(s));
  }

  lemma ChosenAside(s: State, w: World)
    requires s.phase.Halting?
    ensures Aside(s, ChooseStage(s, w))
  {
    hide Emit, Viewed, Aside, Drain;
    DrainAside(s);
    var base := Passed(s, w.writing).(nextId := s.nextId + 1);
    var o := ControlSent(s.nextId, StopInterrupt, None, s.clock + w.writing, w.writeOk);
    EmitAside(s, base, o);
    EmitFields(base, o);
    var sent := SendControl(s, StopInterrupt, None, w);
    DrainAside(sent);
    AsideTwice(s, sent, Drain(sent));
    if s.mapper.active.Some? && w.writeOk {
      BesideAside(sent, ChooseStage(s, w));
      AsideTwice(s, sent, ChooseStage(s, w));
    }
  }

  lemma StopCommandProjects(s: State, reply: Token, w: World, b: Core)
    requires Agrees(s, b) && s.life.Looping?
    ensures Leads(b, CommandActs(s, Some(Stop(reply)), w), EnterStopping(s, StopAsked, Some(reply), false, w))
  {
    var after := EnterStopping(s, StopAsked, Some(reply), false, w);
    AgreesPhase(s, b);
    RefuseAct(b, TAKES_STOP);
    hide Agrees, EnterStopping, Leads, DoOne, Can;
    if Halted(s) {
      JoinAside(s, reply, w);
      KeepsAgreeing(s, after, b);
      LeadsOnce(b, TAKES_STOP, after);
      assert [TAKES_STOP] + [] == [TAKES_STOP];
    } else {
      LeadsOnce(b, TAKES_STOP, s);
      InOne(b, TAKES_STOP);
      StopProjects(s, StopAsked, Some(reply), w, b);
      LeadsOn(b, [TAKES_STOP], s, [Stops], after);
    }
  }

  lemma JoinAside(s: State, reply: Token, w: World)
    requires Halted(s)
    ensures Aside(s, EnterStopping(s, StopAsked, Some(reply), false, w))
  {
    hide Emit, Viewed, Aside;
    EmitAside(s, s, StopJoined(reply));
    EmitFields(s, StopJoined(reply));
    var after := EnterStopping(s, StopAsked, Some(reply), false, w);
    BesideAside(Emit(s, StopJoined(reply)), after);
    AsideTwice(s, Emit(s, StopJoined(reply)), after);
  }

  // ---- Frames --------------------------------------------------------------------------------

  /** The acts of one output: an ask recorded, an ask withdrawn, a hand-off over, a route's asks gone. */
  function OutputActs(s: State, output: Output, w: World): seq<Act> {
    match output
    case PendingAsk(_, ask) => if s.reaped then [] else [Records(ask)]
    case CancelRequest(ask) => [Finds(ask, w.pending.Some?)]
    case RouteClosed(_) => [Forgets(w.asks)]
    case ControlResponse(_, payload) =>
      if Answers(s, output) && OnSetupResponse(s, payload, w).state.setup.None? then
        [HandsOver(Began(s, OnSetupResponse(s, payload, w).state))]
      else []
    case _ => []
  }

  /** A turn is live that was not. */
  predicate Began(s: State, after: State) {
    s.mapper.active.None? && after.mapper.active.Some?
  }

  /** A hand-off in flight is one of a serving supervisor. */
  predicate InFlightServes(s: State) {
    s.setup.Some? ==> s.phase.Serving?
  }

  lemma HandOffAnswered(s: State, payload: Payload, w: World)
    requires s.setup.Some? && Viewed(s.log).place == At(H.Live)
    ensures var after := OnSetupResponse(s, payload, w).state;
            LetGo(s, after)
  {
    hide Emit, Viewed, SendSetup, AfterMode, AfterReadBack;
    var setup := s.setup.value;
    var taken := Emit(s.(setup := None), Answered(setup.id, payload, SceneOf(s, w)));
    Adds(s.(setup := None), Answered(setup.id, payload, SceneOf(s, w)));
    if !payload.Success? {
      Adds(taken, Settled(setup.reply, Failed(StageRefused(setup.stage, payload))));
    } else {
      match setup.stage
      case Mode => ModeShowsNothing(taken, setup, w);
      case Model => SetupSent(taken, setup, if setup.effortChange.Some? then Effort else ReadBack, w);
      case Effort => SetupSent(taken, setup, ReadBack, w);
      case ReadBack => ReadBackShowsNothing(taken, setup, payload, w);
    }
  }

  /** What the end of a hand-off leaves: nothing answered, and the withdrawals kept unless a turn began. */
  predicate LetGo(s: State, after: State) {
    && after.life == s.life && after.phase == s.phase && after.reaped == s.reaped
    && (if Began(s, after) then after.withdrawn == {} && after.setup.None? else after.withdrawn == s.withdrawn)
    && Viewed(after.log) == Viewed(s.log)
  }

  lemma FinishShowsNothing(s: State, setup: TurnSetup, w: World)
    requires s.setup.None?
    ensures LetGo(s, FinishTurnSetup(s, setup, w).state)
  {
    hide Emit, Viewed, BeginTurn;
    if w.gaveUp || s.mapper.active.Some? {
      Adds(s, Settled(setup.reply, if w.gaveUp then Dropped else Failed(ThreadBusy)));
    } else {
      BegunTurn(s, setup.turn, setup.notice);
      var begun := Passed(BeginTurn(s, setup.turn, setup.notice), w.writing);
      var o := UserLine(setup.reply, setup.turn, setup.line, setup.settings, s.mode, s.model, s.effort,
                        s.mapper.active, HandOffs(s), w.writeOk);
      Adds(begun, o);
      Adds(Emit(begun, o), Settled(setup.reply, Written(w)));
    }
  }

  lemma ModeShowsNothing(s: State, setup: TurnSetup, w: World)
    requires s.setup.None?
    ensures LetGo(s, AfterMode(s, setup, w).state)
  {
    hide Viewed, SendSetup, FinishTurnSetup;
    var now := s.(mode := setup.settings.mode);
    forall decided: TurnSetup, stage ensures LetGo(now, SendSetup(now, decided, stage, w).state) {
      SetupSent(now, decided, stage, w);
    }
    forall decided: TurnSetup ensures LetGo(now, FinishTurnSetup(now, decided, w).state) {
      FinishShowsNothing(now, decided, w);
    }
  }

  lemma AdoptedAside(s: State, setup: TurnSetup, payload: Payload, w: World)
    requires payload.Success? && Viewed(s.log).place == At(H.Live)
    ensures var held := Adopt(s, setup, payload, w);
            && held.life == s.life && held.phase == s.phase && held.reaped == s.reaped && held.setup == s.setup
            && held.withdrawn == s.withdrawn && held.mapper == s.mapper && Viewed(held.log) == Viewed(s.log)
  {
    hide Viewed;
    var model := if setup.modelChange.Some? then setup.model else s.model;
    var base := s.(model := model.(effort := payload.appliedEffort), effort := payload.appliedEffort);
    Adds(base, EntrySynced(base.model));
  }

  lemma ReadBackShowsNothing(s: State, setup: TurnSetup, payload: Payload, w: World)
    requires s.setup.None? && payload.Success? && Viewed(s.log).place == At(H.Live)
    ensures LetGo(s, AfterReadBack(s, setup, payload, w).state)
  {
    hide Emit, Viewed, FinishTurnSetup, ModelApplied, Adopt;
    var wanted := WantedModel(s, setup);
    if !ModelApplied(s, setup, payload) {
      Adds(s, Settled(setup.reply, Failed(WrongModel(payload.appliedModel, wanted))));
    } else {
      var held := Adopt(s, setup, payload, w);
      AdoptedAside(s, setup, payload, w);
      if setup.effortChange.Some? && payload.appliedEffort != setup.effortChange {
        Adds(held, Settled(setup.reply, Failed(EffortNotTaken(setup.effortChange.value, wanted))));
      } else {
        FinishShowsNothing(held, setup, w);
      }
    }
  }

  lemma PublishedAside(s: State, o: Obs)
    requires Mute(o)
    ensures Aside(s, Publish(s, o))
  {
    hide Emit, Viewed, Aside;
    EmitAside(s, s, if s.reaped then OutputDropped else o);
  }

  lemma RouteAside(s: State, thread: ThreadId)
    requires !s.reaped ==> Viewed(s.log).place.At? && InLoop(Viewed(s.log).place.stage)
    ensures Aside(s, Publish(s, RoutePublished(thread)))
  {
    hide Viewed;
    Adds(s, OutputDropped);
    Adds(s, RoutePublished(thread));
  }

  /** The outputs that concern no hand-off and no ask's life. */
  lemma OutputAside(s: State, output: Output, w: World)
    requires !Answers(s, output) && !output.CancelRequest?
    requires !s.reaped ==> Viewed(s.log).place.At? && InLoop(Viewed(s.log).place.stage)
    ensures Aside(s, Dispatch(s, output, w).state)
  {
    hide Emit, Viewed, Aside, OnSetupResponse, Settle, Goes, Publish;
    BesideAside(s, s);
    match output
    case Event => PublishedAside(s, Published);
    case Reply =>
      EmitAside(s, s, OutputDropped);
      EmitAside(s, Passed(s, w.writing), MapperWrote(w.writeOk));
    case PendingAsk(kind, ask) => PublishedAside(s, AskRecorded(kind, ask));
    case RouteOpened(thread) => RouteAside(s, thread);
    case RouteReopened(thread) => RouteAside(s, thread);
    case RouteClosed(thread) => EmitTwiceAside(s, RouteLeft(thread), AsksForgotten(w.asks));
    case ControlResponse(id, payload) =>
      if id in s.waiters {
        var base := s.(waiters := s.waiters - {id});
        var taken := Emit(base, Answered(id, payload, SceneOf(s, w)));
        EmitAside(s, base, Answered(id, payload, SceneOf(s, w)));
        if !s.waiters[id].NobodyWaits? {
          SettleAside(taken, s.waiters[id].reply, WaiterOutcome(s.waiters[id], payload));
          AsideTwice(s, taken, Settle(taken, s.waiters[id].reply, WaiterOutcome(s.waiters[id], payload)));
        }
      } else if id in s.abandoned {
        EmitAside(s, s.(abandoned := s.abandoned - {id}), Answered(id, payload, SceneOf(s, w)));
      } else {
        EmitAside(s, s, Unmatched(id));
      }
  }

  lemma CancelShowsNothing(s: State, ask: AskId, found: Option<AskKind>)
    ensures var after := OnCancelRequest(s, ask, found);
            Aside(if found.None? then s.(withdrawn := s.withdrawn + {ask}) else s, after)
  {
    hide Emit, Viewed, Aside;
    var noted := Emit(s, AskWithdrawn(ask, found));
    EmitFields(s, AskWithdrawn(ask, found));
    EmitAside(s, s, AskWithdrawn(ask, found));
    match found
    case None =>
      var base := s.(withdrawn := s.withdrawn + {ask});
      EmitAside(base, base, AskWithdrawn(ask, found));
      assert Emit(base, AskWithdrawn(ask, found)) == OnCancelRequest(s, ask, found) by {
        Adds(base, AskWithdrawn(ask, found));
        Adds(s, AskWithdrawn(ask, found));
      }
    case Some(Approval) =>
    case Some(ServerRequest) =>
      var o := if s.reaped then OutputDropped else AskCleared(ask);
      EmitAside(noted, noted, o);
      AsideTwice(s, noted, Emit(noted, o));
  }

  lemma AnswerProjects(s: State, output: Output, w: World, b: Core)
    requires Agrees(s, b) && Ready(s) && Answers(s, output)
    ensures Leads(b, OutputActs(s, output, w), Dispatch(s, output, w).state)
    ensures Ready(Dispatch(s, output, w).state)
  {
    var after := Dispatch(s, output, w).state;
    HandOffAnswered(s, output.payload, w);
    HandOverAct(b, Began(s, after));
    hide OnSetupResponse, Viewed, Goes, DoOne, Can, Leads;
    if after.setup.None? {
      LeadsOnce(b, HandsOver(Began(s, after)), after);
    } else {
      LeadsNowhere(b, after);
    }
  }

  lemma WithdrawnAgrees(s: State, base: State, b: Core, ask: AskId, pending: bool)
    requires Agrees(s, b) && Ready(s)
    requires base == if pending then s else s.(withdrawn := s.withdrawn + {ask})
    ensures Agrees(base, if pending then b else b.(withdrawn := b.withdrawn + {ask}))
  {
    hide Viewed;
  }

  lemma CancelProjects(s: State, output: Output, w: World, b: Core)
    requires Agrees(s, b) && Ready(s) && output.CancelRequest?
    ensures Leads(b, OutputActs(s, output, w), Dispatch(s, output, w).state)
    ensures Ready(Dispatch(s, output, w).state)
  {
    var act := Finds(output.ask, w.pending.Some?);
    var base := if w.pending.None? then s.(withdrawn := s.withdrawn + {output.ask}) else s;
    CancelShowsNothing(s, output.ask, w.pending);
    AgreesPhase(s, b);
    FindAct(b, output.ask, w.pending.Some?);
    hide OnCancelRequest, Viewed, Goes, Aside, StageOf, DoOne, Can, Leads;
    WithdrawnAgrees(s, base, b, output.ask, w.pending.Some?);
    hide Agrees;
    KeepsAgreeing(base, OnCancelRequest(s, output.ask, w.pending), DoOne(b, act));
    AsideFacts(base, OnCancelRequest(s, output.ask, w.pending));
    LeadsOnce(b, act, OnCancelRequest(s, output.ask, w.pending));
  }

  lemma OtherOutputProjects(s: State, output: Output, w: World, b: Core)
    requires Agrees(s, b) && Ready(s)
    requires !Answers(s, output) && !output.CancelRequest?
    ensures Leads(b, OutputActs(s, output, w), Dispatch(s, output, w).state)
    ensures Ready(Dispatch(s, output, w).state)
  {
    var after := Dispatch(s, output, w).state;
    OutputAside(s, output, w);
    AgreesPhase(s, b);
    hide Dispatch, Viewed, OnSetupResponse, Goes, DoOne, Can, Leads;
    KeepsAgreeing(s, after, b);
    hide Agrees;
    LeadsNowhere(b, after);
    if output.PendingAsk? {
      RecordAct(b, output.ask);
      LeadsOnce(b, Records(output.ask), after);
    } else if output.RouteClosed? {
      ForgetAct(b, w.asks);
      LeadsOnce(b, Forgets(w.asks), after);
    }
  }

  /** Each output of a frame is the acts it stands for. */
  lemma OutputProjects(s: State, output: Output, w: World, b: Core)
    requires Agrees(s, b) && Ready(s)
    ensures Leads(b, OutputActs(s, output, w), Dispatch(s, output, w).state)
    ensures Ready(Dispatch(s, output, w).state)
  {
    hide Dispatch, Viewed, Agrees, Ready, OutputActs, Leads;
    if Answers(s, output) {
      AnswerProjects(s, output, w, b);
    } else if output.CancelRequest? {
      CancelProjects(s, output, w, b);
    } else {
      OtherOutputProjects(s, output, w, b);
    }
  }

  function FrameActs(s: State, outputs: seq<(Output, World)>): seq<Act>
    decreases |outputs|
  {
    if outputs == [] then []
    else
      var (output, w) := outputs[0];
      var first := Dispatch(s, output, w);
      OutputActs(s, output, w) + if first.ok then FrameActs(first.state, outputs[1..]) else []
  }

  /** The loop is before its end, and a hand-off in flight is one of a serving supervisor. */
  predicate Ready(s: State) {
    (s.life.Early? || s.life.Looping?) && Standing(s)
  }

  /** The supervisor stands where its hand-offs and its phase allow. */
  predicate Standing(s: State) {
    && (s.life.Early? ==> s.phase.Serving?)
    && InFlightServes(s)
    && (s.phase.Halting? ==> s.phase.reaped == s.reaped)
  }

  lemma {:induction false} FrameProjects(s: State, outputs: seq<(Output, World)>, b: Core)
    requires Agrees(s, b) && Ready(s)
    ensures Leads(b, FrameActs(s, outputs), DispatchAll(s, outputs).state)
    ensures Ready(DispatchAll(s, outputs).state)
    decreases |outputs|
  {
    hide Dispatch, Agrees, Ready, OutputActs, Leads, DoAll;
    if outputs == [] {
      LeadsNowhere(b, s);
    } else {
      var (output, w) := outputs[0];
      var first := Dispatch(s, output, w);
      var acts := OutputActs(s, output, w);
      OutputProjects(s, output, w, b);
      if first.ok {
        LedAgrees(b, acts, first.state);
        FrameProjects(first.state, outputs[1..], DoAll(b, acts));
        LeadsOn(b, acts, first.state, FrameActs(first.state, outputs[1..]), DispatchAll(s, outputs).state);
      } else {
        assert acts + [] == acts;
      }
    }
  }

  lemma LedAgrees(b: Core, acts: seq<Act>, after: State)
    requires Leads(b, acts, after)
    ensures Agrees(after, DoAll(b, acts))
  {
    hide Agrees, DoAll;
  }

  // ---- The child's end -----------------------------------------------------------------------

  predicate SameView(s: State, after: State) {
    Viewed(after.log) == Viewed(s.log)
  }

  lemma EmitShowsNothing(s: State, base: State, o: Obs)
    requires base.log == s.log && Mute(o)
    ensures SameView(s, Emit(base, o))
  {
    hide Viewed;
    Adds(base, o);
  }

  lemma PartShowsNothing(s: State, parting: Parting)
    ensures SameView(s, Part(s, parting))
  {
    hide Emit, Viewed;
    match parting
    case Said => EmitShowsNothing(s, s, if s.reaped then OutputDropped else Published);
    case Closed(thread, asks) =>
      EmitShowsNothing(s, s, RouteLeft(thread));
      EmitShowsNothing(Emit(s, RouteLeft(thread)), Emit(s, RouteLeft(thread)), AsksForgotten(asks));
  }

  lemma {:induction false} PartAllShowsNothing(s: State, partings: seq<Parting>)
    ensures SameView(s, PartAll(s, partings))
    decreases |partings|
  {
    hide Part, Viewed;
    if partings != [] {
      PartShowsNothing(s, partings[0]);
      PartAllShowsNothing(Part(s, partings[0]), partings[1..]);
    }
  }

  lemma {:induction false} AnswerStopsShowsNothing(s: State, replies: seq<Token>)
    ensures SameView(s, AnswerStops(s, replies))
    decreases |replies|
  {
    hide Emit, Viewed;
    if replies != [] {
      EmitShowsNothing(s, s, StopAnswered(replies[0]));
      AnswerStopsShowsNothing(Emit(s, StopAnswered(replies[0])), replies[1..]);
    }
  }

  lemma FailingShowsNothing(s: State)
    ensures SameView(s, FailSetup(s))
  {
    hide Emit, Viewed;
    if s.setup.Some? {
      EmitShowsNothing(s, s.(setup := None), Settled(s.setup.value.reply, Failed(ChildStopped)));
    }
  }

  /** The thread ends with its child: its routes cooled, then its log closed, unless it was reaped. */
  lemma EndThreadShows(s: State, bye: Farewell, asks: set<AskId>)
    requires s.life.Ending? && Placed(s)
    ensures var v := Viewed(EndThread(s, bye, asks).log);
            && v.answers == Viewed(s.log).answers
            && v.place == At(if Steps.WasReaped(s) then H.Reaped else H.LogShut)
  {
    hide Emit, Viewed, PartAll, Partings, FailSetup, Goes, Look;
    FailingShowsNothing(s);
    var freed := FailSetup(s);
    var dropped := if Steps.WasReaped(s) then freed else Emit(freed, AsksDropped(asks));
    PartAllShowsNothing(dropped, Partings(s, bye));
    var closed := PartAll(dropped, Partings(s, bye));
    if Steps.WasReaped(s) {
      CoolsAgain(closed);
    } else {
      Adds(freed, AsksDropped(asks));
      ThreadShuts(Viewed(freed.log), asks);
      Adds(closed, RoutesCooled);
      Adds(Emit(closed, RoutesCooled), LogClosed);
    }
  }

  lemma CoolsAgain(s: State)
    requires Viewed(s.log).place == At(H.Reaped)
    ensures Viewed(Emit(s, RoutesCooled).log) == Viewed(s.log)
  {
    Adds(s, RoutesCooled);
    hide Viewed, Emit;
  }

  lemma ThreadShuts(v: View, asks: set<AskId>)
    requires v.place.At? && InLoop(v.place.stage)
    ensures Look(Look(Look(v, AsksDropped(asks)), RoutesCooled), LogClosed) == v.(place := At(H.LogShut))
  {
  }

  lemma ExitShows(s: State, bye: Farewell, w: World)
    requires s.life.Ending? && Placed(s)
    ensures var v := Viewed(OnExit(s, bye, w).log);
            v.answers == Viewed(s.log).answers && v.place == At(H.Gone(Steps.WasReaped(s)))
  {
    hide Emit, Viewed, EndThread, WaiterReplies, Placed, Goes, Look, Steps.WasReaped;
    EndThreadShows(s, bye, w.asks);
    var ended := EndThread(s, bye, w.asks);
    var failed := Emit(ended.(waiters := map[]), WaitersFailed(WaiterReplies(s.waiters)));
    EmitShowsNothing(ended, ended.(waiters := map[]), WaitersFailed(WaiterReplies(s.waiters)));
    Adds(failed, EntryRemoved);
    var left := if !Steps.WasReaped(s) && w.holdsEntry then Emit(failed, EntryRemoved) else failed;
    Adds(left, ExitHandled);
    ChildLeaves(Viewed(failed.log));
  }

  /** The last sections of a child: out of its entry, if it is still there, and gone. */
  lemma ChildLeaves(v: View)
    requires v.place == At(H.Reaped) || v.place == At(H.LogShut)
    ensures Look(v, ExitHandled) == v.(place := At(H.Gone(v.place == At(H.Reaped))))
    ensures v.place == At(H.LogShut) ==> Look(Look(v, EntryRemoved), ExitHandled) == v.(place := At(H.Gone(false)))
  {
  }

  lemma FinishShows(s: State, bye: Farewell, w: World)
    requires s.life.Ending? && Placed(s)
    ensures var after := Finish(s, bye, w);
            && after.life.Gone?
            && Viewed(after.log).answers == Viewed(s.log).answers
            && Viewed(after.log).place == At(H.Gone(Steps.WasReaped(s)))
  {
    hide Emit, Viewed, OnExit, AnswerStops, Placed;
    ExitShows(s, bye, w);
    AnswerStopsShowsNothing(OnExit(s, bye, w), if s.life.how.Stopped? then s.life.how.replies else []);
  }

  // ---- One step ------------------------------------------------------------------------------

  function PartActs(partings: seq<Parting>): seq<Act> {
    if partings == [] then []
    else (if partings[0].Closed? then [Forgets(partings[0].asks)] else []) + PartActs(partings[1..])
  }

  /** The asks of the thread go with its child, unless it was reaped; those of its routes do in any case;
      then its queue. */
  function ExitActs(s: State, bye: Farewell, w: World): seq<Act> {
    (if Steps.WasReaped(s) then [] else [Forgets(w.asks)]) + PartActs(Partings(s, bye)) + [Drops]
  }

  /** The acts of one step of the loop. */
  ghost function StepActs(s: State, t: Steps.Turn): seq<Act> {
    if !Enabled(s, t) then []
    else if HasFrame(t.input) then FrameStepActs(s, t)
    else
      match t.input
      case StdoutEof => [Ends]
      case ReadError => [Ends]
      case Queue(command) => CommandActs(Polled(s, t), command, t.w)
      case ShutdownFlag => [Stops]
      case StageTimer => DeadlineActs(s)
      case IdleTimer(queued) =>
        if t.w.holdsEntry && queued.Some? then
          CommandActs(Emit(Emit(Polled(s, t), RoutesCooled), ReapCancelled), queued, t.w)
        else [Stops]
      case ChildExited(bye) => ExitActs(s, bye, t.w)
      case _ => []
  }

  function DeadlineActs(s: State): seq<Act> {
    match s.phase
    case Serving => [HandsOver(false)]
    case Halting(_, _, stage, _) => if stage.Interrupting? then [] else [Ends]
  }

  function FrameStepActs(s: State, t: Steps.Turn): seq<Act>
    requires HasFrame(t.input)
  {
    var base := FrameBase(s, t);
    FrameActs(base, t.input.outputs) + if DispatchAll(base, t.input.outputs).ok then [] else [Ends]
  }

  lemma TrackedAside(s: State, asks: bool)
    ensures var tracked := TrackIdle(s, asks);
            Aside(s, tracked) && tracked.phase == s.phase && tracked.setup == s.setup && tracked.life == s.life
  {
    hide Viewed, Aside, BusyWith;
    BesideAside(s, s);
    if !Halted(s) {
      var busy := BusyWith(s, asks);
      var since := if busy.Some? then None else if s.idleSince.Some? then s.idleSince else Some(s.clock);
      EmitAside(s, s.(idleSince := since), LoopTop(s.clock, busy));
      assert TrackIdle(s, asks) == Emit(s.(idleSince := since), LoopTop(s.clock, busy));
    }
  }

  lemma PolledAside(s: State, t: Steps.Turn)
    ensures Aside(s, Polled(s, t)) && Polled(s, t).phase == s.phase && Polled(s, t).setup == s.setup
    ensures Polled(s, t).life == s.life
  {
    hide Viewed, Aside, TrackIdle;
    TrackedAside(s, t.asks);
    BesideAside(TrackIdle(s, t.asks), Polled(s, t));
    AsideTwice(s, TrackIdle(s, t.asks), Polled(s, t));
  }

  lemma FrameBaseAside(s: State, t: Steps.Turn)
    requires HasFrame(t.input)
    ensures Aside(s, FrameBase(s, t)) && FrameBase(s, t).phase == s.phase && FrameBase(s, t).setup == s.setup
  {
    hide Emit, Viewed, Aside, Polled;
    PolledAside(s, t);
    var p := Polled(s, t);
    match t.input
    case EarlyLine(view, _) => BesideAside(s, FrameBase(s, t));
    case Line(view, _) =>
      var spoken := p.(lastLine := p.clock);
      EmitAside(p, spoken, LineRead(p.clock));
      EmitFields(spoken, LineRead(p.clock));
      BesideAside(Emit(spoken, LineRead(p.clock)), FrameBase(s, t));
      AsideTwice(p, Emit(spoken, LineRead(p.clock)), FrameBase(s, t));
      AsideTwice(s, p, FrameBase(s, t));
    case NotificationTimer(view, _) =>
      BesideAside(p, FrameBase(s, t));
      AsideTwice(s, p, FrameBase(s, t));
  }

  lemma AfterLineAside(s: State)
    ensures Aside(s, AfterLine(s))
  {
    hide Viewed, Aside, Drain;
    var mapped := Emit(s, LineMapped(s.mapper.active, s.clock));
    EmitAside(s, s, LineMapped(s.mapper.active, s.clock));
    if s.phase.Halting? {
      DrainAside(mapped);
      AsideTwice(s, mapped, Drain(mapped));
    }
  }

  /** The loop ends: its books are over. */
  lemma EndProjects(s: State, after: State, b: Core)
    requires Agrees(s, b) && (s.life.Early? || s.life.Looping?) && after.life.Ending? && SameView(s, after)
    requires StageOf(after.life, after.phase) == StageOf(s.life, s.phase)
    ensures Leads(b, [Ends], after)
  {
    AgreesPhase(s, b);
    EndAct(b);
    assert Agrees(after, DoOne(b, Ends)) by { hide Viewed, DoOne; }
    hide Viewed, Agrees, DoOne, Can, Leads;
    LeadsOnce(b, Ends, after);
  }

  lemma FrameStepProjects(s: State, t: Steps.Turn, b: Core)
    requires HasFrame(t.input)
    requires Enabled(s, t) && Agrees(s, b) && Ready(s)
    ensures Leads(b, FrameStepActs(s, t), Step(s, t))
  {
    FrameBaseAside(s, t);
    var base := FrameBase(s, t);
    KeepsAgreeing(s, base, b);
    BaseIsReady(s, base);
    StepIsDispatch(s, t);
    hide Viewed, FrameBase, FrameActs, DispatchAll, AfterLine, Break, Enabled, Leads, DoAll, Step, Agrees, Ready, Aside;
    FrameProjects(base, t.input.outputs, b);
    var r := DispatchAll(base, t.input.outputs);
    var acts := FrameActs(base, t.input.outputs);
    LedAgrees(b, acts, r.state);
    if r.ok {
      assert acts + [] == acts;
      AfterLineAside(r.state);
      KeepsAgreeing(r.state, AfterLine(r.state), DoAll(b, acts));
      LedElsewhere(b, acts, r.state, AfterLine(r.state));
    } else {
      BreakEnds(r.state, DoAll(b, acts));
      LeadsOn(b, acts, r.state, [Ends], Break(r.state));
    }
  }

  lemma BaseIsReady(s: State, base: State)
    requires Ready(s) && Aside(s, base) && base.phase == s.phase && base.setup == s.setup
    ensures Ready(base)
  {
    hide Viewed;
  }

  lemma LedElsewhere(b: Core, acts: seq<Act>, after: State, beside: State)
    requires Leads(b, acts, after) && Agrees(beside, DoAll(b, acts))
    ensures Leads(b, acts, beside)
  {
    hide Agrees, AllCan, DoAll;
  }

  lemma BreakEnds(s: State, b: Core)
    requires Agrees(s, b) && Ready(s)
    ensures Leads(b, [Ends], Break(s))
  {
    BreakShowsNothing(s);
    hide Viewed, Break, Leads, StageOf, Agrees;
    EndProjects(s, Break(s), b);
  }

  lemma QueueProjects(s: State, t: Steps.Turn, b: Core)
    requires t.input.Queue? && Enabled(s, t) && Agrees(s, b)
    ensures Leads(b, StepActs(s, t), Step(s, t))
  {
    hide Viewed, Agrees, Aside, Polled, OnCommand, OrBreak, FreshCommand, CommandActs, Leads;
    PolledAside(s, t);
    KeepsAgreeing(s, Polled(s, t), b);
    CommandProjects(Polled(s, t), t.input.command, t.w, b);
  }

  lemma Cooled(s: State, b: Core) returns (cooled: State)
    requires Agrees(s, b) && s.life.Looping? && !Halted(s)
    ensures cooled == Emit(s, RoutesCooled) && CoreAgrees(cooled, b) && Viewed(cooled.log).place == At(H.Cooled)
    ensures cooled.life == s.life && cooled.phase == s.phase
  {
    cooled := Emit(s, RoutesCooled);
    Adds(s, RoutesCooled);
    hide Viewed;
  }

  lemma CancelAgrees(cooled: State, b: Core)
    requires cooled.life.Looping? && !Halted(cooled) && CoreAgrees(cooled, b)
    requires Viewed(cooled.log).place == At(H.Cooled)
    ensures Agrees(Emit(cooled, ReapCancelled), b)
    ensures var e := Emit(cooled, ReapCancelled); e.life == cooled.life
  {
    Adds(cooled, ReapCancelled);
    hide Viewed;
  }

  lemma Released(cooled: State, model: ModelRef, done: Obs, b: Core) returns (reaped: State)
    requires cooled.life.Looping? && !Halted(cooled) && CoreAgrees(cooled, b) && done.Reaped?
    requires Viewed(cooled.log).place == At(H.Cooled)
    ensures reaped == Emit(Emit(cooled, EntryReleased(model)).(reaped := true), done)
    ensures CoreAgrees(reaped, b) && Viewed(reaped.log).place == At(H.Reaped)
    ensures reaped.life == cooled.life && reaped.phase == cooled.phase
  {
    var released := Emit(cooled, EntryReleased(model));
    Adds(cooled, EntryReleased(model));
    Adds(released.(reaped := true), done);
    reaped := Emit(released.(reaped := true), done);
    hide Viewed;
  }

  /** The idle timer: the drained command is served, or the stop sequence begins. */
  lemma ReapProjects(s: State, queued: Option<Command>, w: World, b: Core)
    requires Agrees(s, b) && s.life.Looping? && !Halted(s) && s.idleTimeout.Some?
    ensures Leads(b,
                  if w.holdsEntry && queued.Some?
                  then CommandActs(Emit(Emit(s, RoutesCooled), ReapCancelled), queued, w) else [Stops],
                  OrBreak(Reap(s, queued, w)))
  {
    hide Viewed, OnCommand, EnterStopping, CommandActs, Break, CoreAgrees, Emit, Agrees, Leads;
    var cooled := Cooled(s, b);
    if !w.holdsEntry {
      StopLands(cooled, StopAsked, None, false, w, b);
    } else if queued.Some? {
      CancelAgrees(cooled, b);
      CommandProjects(Emit(cooled, ReapCancelled), queued, w, b);
    } else {
      var done := Reaped(s.clock, s.idleTimeout.value, HandOffs(s), |s.waiters|);
      var reaped := Released(cooled, s.model, done, b);
      StopLands(reaped, Idle, None, true, w, b);
    }
  }

  lemma LetGoAgrees(s: State, after: State, b: Core)
    requires Agrees(s, b) && s.life.Looping? && s.phase.Serving?
    requires after.life == s.life && after.phase == s.phase && after.setup.None? && after.withdrawn == s.withdrawn
    requires Viewed(after.log) == Viewed(s.log)
    ensures Agrees(after, b.(handingOff := false))
  {
    hide Viewed;
  }

  lemma TimeoutShows(s: State)
    requires s.setup.Some?
    ensures var after := OnSetupDeadline(s);
            && after.life == s.life && after.phase == s.phase && after.setup.None? && after.withdrawn == s.withdrawn
            && Viewed(after.log) == Viewed(s.log)
  {
    hide Emit, Viewed;
    var setup := s.setup.value;
    var waited := if setup.deadline >= setup.sent then setup.deadline - setup.sent else 0;
    Adds(s.(setup := None, abandoned := s.abandoned + {setup.id}),
         Settled(setup.reply, Failed(TimedOut(setup.stage, waited))));
  }

  lemma TimeoutProjects(s: State, b: Core)
    requires Agrees(s, b) && s.life.Looping? && s.phase.Serving? && s.setup.Some?
    ensures Leads(b, [HandsOver(false)], OnSetupDeadline(s))
  {
    hide Viewed, DoOne, Can, Leads, Agrees, OnSetupDeadline;
    TimeoutShows(s);
    AgreesPhase(s, b);
    HandOverAct(b, false);
    LetGoAgrees(s, OnSetupDeadline(s), b);
    LeadsOnce(b, HandsOver(false), OnSetupDeadline(s));
  }

  /** The deadline in force: a hand-off's request, the stop's interrupt, or the stop's grace. */
  lemma DeadlineProjects(s: State, b: Core)
    requires Agrees(s, b) && s.life.Looping? && StageDeadline(s).Some?
    ensures Leads(b, DeadlineActs(s), OnDeadline(s))
  {
    hide Viewed, Leads, Agrees;
    var due := Emit(s, StageDue(s.clock));
    Adds(s, StageDue(s.clock));
    EmitAside(s, s, StageDue(s.clock));
    KeepsAgreeing(s, due, b);
    match s.phase
    case Serving => TimeoutProjects(due, b);
    case Halting(_, _, Interrupting(_, _, _), _) =>
      DrainAside(due);
      hide Drain, Aside;
      KeepsAgreeing(due, Drain(due), b);
      LeadsNowhere(b, Drain(due));
    case Halting(_, _, Draining(_), _) =>
      Adds(due, Killed(true, s.clock));
      EndProjects(due, OnDeadline(s), b);
  }

  lemma PolledStands(s: State, t: Steps.Turn)
    requires Enabled(s, t) && !t.input.EarlyLine? && !t.input.EarlyLinesDone? && !t.input.ChildExited?
    ensures s.life.Looping? && Polled(s, t).life.Looping? && Polled(s, t).phase == s.phase
    ensures Polled(s, t).setup == s.setup && Aside(s, Polled(s, t))
  {
    PolledAside(s, t);
    hide Polled, Aside, FreshCommand;
  }

  /** The loop ends by itself, or a stop is asked for. */
  lemma EndStepProjects(s: State, t: Steps.Turn, b: Core)
    requires t.input.StdoutEof? || t.input.ReadError? || t.input.ShutdownFlag?
    requires Enabled(s, t) && Agrees(s, b)
    ensures Leads(b, StepActs(s, t), Step(s, t))
  {
    PolledStands(s, t);
    var p := Polled(s, t);
    hide Viewed, Aside, Polled, Agrees, Break, EnterStopping, Leads, End, FreshCommand;
    KeepsAgreeing(s, p, b);
    match t.input
    case StdoutEof => EndsQuietly(p, b);
    case ReadError => EndsBroken(p, b);
    case ShutdownFlag => StopProjects(p, Shutdown, None, t.w, b);
  }

  lemma StageStepProjects(s: State, t: Steps.Turn, b: Core)
    requires t.input.StageTimer? && Enabled(s, t) && Agrees(s, b)
    ensures Leads(b, StepActs(s, t), Step(s, t))
  {
    PolledStands(s, t);
    hide Viewed, Aside, Polled, Agrees, OnDeadline, Leads, FreshCommand, StageDeadline;
    KeepsAgreeing(s, Polled(s, t), b);
    DeadlineProjects(Polled(s, t), b);
  }

  /** The timers and the ends of the loop. */
  lemma TimerStepProjects(s: State, t: Steps.Turn, b: Core)
    requires t.input.StdoutEof? || t.input.ReadError? || t.input.ShutdownFlag? || t.input.StageTimer?
    requires Enabled(s, t) && Agrees(s, b)
    ensures Leads(b, StepActs(s, t), Step(s, t))
  {
    hide Leads, StepActs, Step, Enabled, Agrees;
    if t.input.StageTimer? {
      StageStepProjects(s, t, b);
    } else {
      EndStepProjects(s, t, b);
    }
  }

  lemma EndsQuietly(s: State, b: Core)
    requires Agrees(s, b) && s.life.Looping?
    ensures Leads(b, [Ends], End(s, Eof))
  {
    hide Viewed, Agrees, Leads;
    EndProjects(s, End(s, Eof), b);
  }

  lemma EndsBroken(s: State, b: Core)
    requires Agrees(s, b) && s.life.Looping?
    ensures Leads(b, [Ends], Break(s))
  {
    BreakShowsNothing(s);
    hide Viewed, Break, Agrees, Leads;
    EndProjects(s, Break(s), b);
  }

  lemma IdleStepProjects(s: State, t: Steps.Turn, b: Core)
    requires t.input.IdleTimer? && Enabled(s, t) && Agrees(s, b)
    ensures Leads(b, StepActs(s, t), Step(s, t))
  {
    PolledStands(s, t);
    hide Viewed, Aside, Polled, Agrees, Reap, OrBreak, CommandActs, FreshCommand, Leads;
    KeepsAgreeing(s, Polled(s, t), b);
    ReapProjects(Polled(s, t), t.input.queued, t.w, b);
  }

  lemma {:induction false} PartActsChangeNothing(b: Core, partings: seq<Parting>)
    ensures AllCan(b, PartActs(partings)) && DoAll(b, PartActs(partings)) == b
  {
    hide Can, DoOne;
    if partings != [] {
      PartActsChangeNothing(b, partings[1..]);
      if partings[0].Closed? {
        var act := Forgets(partings[0].asks);
        ForgetAct(b, partings[0].asks);
        InOne(b, act);
        InTwo(b, [act], PartActs(partings[1..]));
      } else {
        assert PartActs(partings) == PartActs(partings[1..]);
      }
    }
  }

  lemma ExitProjects(s: State, bye: Farewell, w: World, b: Core)
    requires s.life.Ending? && Agrees(s, b)
    ensures Leads(b, ExitActs(s, bye, w), Finish(s, bye, w))
  {
    AgreesPhase(s, b);
    DropAct(b);
    GoneAgrees(s, bye, w, b);
    var first := if Steps.WasReaped(s) then [] else [Forgets(w.asks)];
    hide Agrees, Finish, DoOne, Can, Leads, Steps.WasReaped, Partings, PartActs;
    LeadsOnce(b, Drops, Finish(s, bye, w));
    LeadsNowhere(b, s);
    ForgetAct(b, w.asks);
    LeadsOnce(b, Forgets(w.asks), s);
    InOne(b, Forgets(w.asks));
    var parts := PartActs(Partings(s, bye));
    PartActsChangeNothing(b, Partings(s, bye));
    LedBy(b, parts, s);
    LeadsOn(b, first, s, parts, s);
    InTwo(b, first, parts);
    LeadsOn(b, first + parts, s, [Drops], Finish(s, bye, w));
  }

  lemma LedBy(b: Core, acts: seq<Act>, s: State)
    requires AllCan(b, acts) && DoAll(b, acts) == b && Agrees(s, b)
    ensures Leads(b, acts, s)
  {
    hide Agrees, AllCan, DoAll;
  }

  lemma GoneAgrees(s: State, bye: Farewell, w: World, b: Core)
    requires s.life.Ending? && Agrees(s, b)
    ensures Agrees(Finish(s, bye, w), b.(phase := A.Gone))
  {
    FinishShows(s, bye, w);
    hide Viewed, Finish, Goes, Steps.WasReaped, StageOf, Agrees;
    PastAgrees(s, Finish(s, bye, w), b, H.Gone(Steps.WasReaped(s)));
  }

  lemma PastAgrees(s: State, after: State, b: Core, stage: H.Stage)
    requires s.life.Ending? && Agrees(s, b) && after.life.Gone? && stage.Gone?
    requires Viewed(after.log).answers == Viewed(s.log).answers && Viewed(after.log).place == At(stage)
    ensures Agrees(after, b.(phase := A.Gone))
  {
    hide Viewed, Goes, StageOf;
  }

  lemma LoopBegins(s: State, b: Core)
    requires s.life.Early? && s.phase.Serving? && Agrees(s, b)
    ensures Agrees(s.(life := Looping), b)
  {
    hide Viewed;
  }

  /** Every step of the loop is, of the asks, the acts it stands for: each possible where it is done, and
      together they make of the supervisor's part what the step makes of the supervisor. */
  lemma StepProjects(s: State, t: Steps.Turn, b: Core)
    requires Agrees(s, b) && Standing(s)
    ensures AllCan(b, StepActs(s, t)) && Agrees(Step(s, t), DoAll(b, StepActs(s, t)))
  {
    hide Viewed, Polled, Agrees, Body, Mapped, OrBreak, Finish, CommandActs, DoAll, AllCan,
      FrameStepActs, FrameBase, FreshCommand, ExitActs, DeadlineActs;
    if !Enabled(s, t) {
      LeadsNowhere(b, s);
    } else if HasFrame(t.input) {
      FrameIsReady(s, t);
      FrameStepProjects(s, t, b);
    } else {
      match t.input
      case EarlyLinesDone =>
        LoopBegins(s, b);
        LeadsNowhere(b, s.(life := Looping));
      case Queue(_) => QueueProjects(s, t, b);
      case IdleTimer(_) => IdleStepProjects(s, t, b);
      case ChildExited(bye) => ExitProjects(s, bye, t.w, b);
      case _ => TimerStepProjects(s, t, b);
    }
  }

  lemma FrameIsReady(s: State, t: Steps.Turn)
    requires HasFrame(t.input) && Enabled(s, t) && Standing(s)
    ensures Ready(s)
  {
    hide Polled, FreshCommand;
  }

  // ---- Runs of the supervisor and its callers ------------------------------------------------

  ghost function RunActs(s: State, turns: seq<Steps.Turn>): seq<Act>
    decreases |turns|
  {
    if turns == [] then [] else StepActs(s, turns[0]) + RunActs(Step(s, turns[0]), turns[1..])
  }

  lemma GoodStands(s: State)
    requires Good(s, multiset{})
    ensures Standing(s)
  {
    hide Summary, Held, Ledger, Accounts, Tracked, Staged, QuietOk;
  }

  lemma {:induction false} RunLeads(s: State, turns: seq<Steps.Turn>, b: Core)
    requires Good(s, multiset{}) && Agrees(s, b)
    ensures AllCan(b, RunActs(s, turns)) && Agrees(Run(s, turns), DoAll(b, RunActs(s, turns)))
    decreases |turns|
  {
    hide Good, Agrees, Step, StepActs, Standing, Can, DoOne;
    if turns != [] {
      var next, acts := Step(s, turns[0]), StepActs(s, turns[0]);
      GoodStands(s);
      StepKeeps(s, turns[0]);
      StepProjects(s, turns[0], b);
      RunLeads(next, turns[1..], DoAll(b, acts));
      InTwo(b, acts, RunActs(next, turns[1..]));
    }
  }

  const UNTOLD: Core := CoreOf(A.QUIET)

  lemma BornAgrees(spawn: Spawn)
    ensures Agrees(Born(spawn), UNTOLD)
  {
    var o := Inherited(spawn.inherited, spawn.firstId, spawn.model);
    assert Born(spawn).log == [] + [o];
    assert ([] + [o])[..0] == [];
  }

  lemma BornLeads(spawn: Spawn, turns: seq<Steps.Turn>)
    requires forall id <- spawn.inherited :: id < spawn.firstId
    ensures AllCan(UNTOLD, RunActs(Born(spawn), turns))
    ensures Agrees(Run(Born(spawn), turns), DoAll(UNTOLD, RunActs(Born(spawn), turns)))
  {
    BornIsSpawned(spawn);
    hide Good, Born, Spawned, Agrees;
    SpawnedIsGood(spawn.model, spawn.idleTimeout, spawn.inherited, spawn.firstId, spawn.now, spawn.mapper);
    BornAgrees(spawn);
    RunLeads(Born(spawn), turns, UNTOLD);
  }

  /** From a spawn on, whatever calls come between the acts of the supervisor's run, up to any of them:
      each act is a move the books allow when it is done, and once all are done the books are what the
      supervisor is. */
  lemma RunProjects(spawn: Spawn, turns: seq<Steps.Turn>, hs: seq<Happening>)
    requires forall id <- spawn.inherited :: id < spawn.firstId
    requires ActsIn(hs) <= RunActs(Born(spawn), turns) && Seen(A.QUIET, hs)
    ensures Possible(A.QUIET, hs)
    ensures ActsIn(hs) == RunActs(Born(spawn), turns) ==>
              Agrees(Run(Born(spawn), turns), CoreOf(A.Run(A.QUIET, MovesIn(hs))))
  {
    hide RunActs, Run, Agrees, Seen, Possible, Born, Spawned, AllCan, DoAll;
    BornLeads(spawn, turns);
    var acts := RunActs(Born(spawn), turns);
    var done, rest := ActsIn(hs), acts[|ActsIn(hs)|..];
    assert acts == done + rest;
    InTwo(UNTOLD, done, rest);
    ActsAmongCalls(A.QUIET, hs);
  }

  /** So whatever its callers do, a supervisor writes at most one answer to an ask. */
  lemma WritesOneAnswer(spawn: Spawn, turns: seq<Steps.Turn>, hs: seq<Happening>, ask: AskId)
    requires forall id <- spawn.inherited :: id < spawn.firstId
    requires ActsIn(hs) == RunActs(Born(spawn), turns) && Seen(A.QUIET, hs)
    ensures Viewed(Run(Born(spawn), turns).log).answers[ask] <= 1
  {
    hide RunActs, Run, Seen, Possible, Born, Spawned, A.Run, Viewed;
    RunProjects(spawn, turns, hs);
    A.AnsweredAtMostOnce(MovesIn(hs), ask);
  }

  lemma BornIsSpawned(spawn: Spawn)
    ensures Born(spawn)
         == Spawned(spawn.model, spawn.idleTimeout, spawn.inherited, spawn.firstId, spawn.now, spawn.mapper)
  {
  }
}
