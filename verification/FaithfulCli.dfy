/** The settings hand-off against a CLI that does what it answers: what the supervisor tracks is
    what the CLI holds. */
module FaithfulCli {
  import opened Protocol
  import opened Trace
  import opened Steps
  import opened Invariant
  import opened Preservation

  /** What the CLI really holds. */
  datatype Cli = Cli(mode: string, model: string, effort: Option<string>)

  /** The catalog's `resolvedModel` of each selector. */
  type Catalog = map<string, string>

  function Resolved(catalog: Catalog, selector: string): Option<string> {
    if selector in catalog then Some(catalog[selector]) else None
  }

  /** The CLI may report a selector by what the catalog resolves it to. */
  predicate SameModel(catalog: Catalog, selector: string, held: string) {
    held == selector || Resolved(catalog, selector) == Some(held)
  }

  /** The supervisor tracks what the CLI holds. */
  predicate Tracks(catalog: Catalog, s: State, cli: Cli) {
    && s.mode == cli.mode
    && s.effort == cli.effort
    && SameModel(catalog, s.model.model, cli.model)
  }

  /** The facade resolves the very model it asks for. */
  predicate ResolvedByFacade(catalog: Catalog, s: State, setup: TurnSetup) {
    setup.settings.resolvedModel == Resolved(catalog, WantedModel(s, setup))
  }

  /** One answer of a faithful CLI to the in-flight request, as written, and what it holds after it. A refused
      request changes nothing; a model switch may change the effort to anything; an effort level
      may be accepted and yet leave the previous one; a read-back tells the truth. */
  predicate Faithful(catalog: Catalog, setup: TurnSetup, cli: Cli, payload: Payload, after: Cli) {
    if !payload.Success? then after == cli
    else
      match WishOf(setup, setup.stage)
      case SetMode(mode) => after == cli.(mode := mode)
      case SetModel(model) => after.mode == cli.mode && model.Some? && SameModel(catalog, model.value, after.model)
      case SetEffort(level) => after == cli || after == cli.(effort := level)
      case ReadSettings => after == cli && payload == Success(Some(cli.model), cli.effort)
  }

  /** The model the CLI must hold once the model stage is past. */
  function Switched(s: State, setup: TurnSetup): string {
    if setup.modelChange.Some? then setup.modelChange.value else s.model.model
  }

  /** What is known of the CLI while a hand-off that began in step with it is in flight. */
  predicate InStep(catalog: Catalog, s: State, cli: Cli) {
    s.setup.Some? ==>
      var setup := s.setup.value;
      && ResolvedByFacade(catalog, s, setup)
      && (setup.settings.model.Some? ==> setup.settings.model.value == setup.model.model)
      && match setup.stage
         case Mode => Tracks(catalog, s, cli)
         case Model =>
           && Decided(setup, s.mode, s.model, s.effort)
           && setup.modelChange.Some?
           && Tracks(catalog, s, cli)
         case Effort =>
           && Decided(setup, s.mode, s.model, s.effort)
           && setup.effortChange.Some?
           && s.mode == cli.mode
           && SameModel(catalog, Switched(s, setup), cli.model)
           && (setup.modelChange.None? ==> s.effort == cli.effort)
         case ReadBack =>
           && Decided(setup, s.mode, s.model, s.effort)
           && s.mode == cli.mode
           && SameModel(catalog, Switched(s, setup), cli.model)
           && (setup.modelChange.None? ==> cli.effort == s.effort || cli.effort == setup.effortChange)
  }

  /** The answer wrote the turn's user line. */
  predicate WroteUserLine(s: State, after: State) {
    exists i :: |s.log| <= i < |after.log| && after.log[i].UserLine?
  }

  /** The turn's settings, as the CLI holds them. */
  predicate Requested(catalog: Catalog, settings: TurnSettings, cli: Cli) {
    && cli.mode == settings.mode
    && (settings.model.Some? ==> SameModel(catalog, settings.model.value, cli.model))
    && (settings.effort.Some? ==> cli.effort == settings.effort)
  }

  lemma SendSetupInStep(s: State, setup: TurnSetup, stage: SetupStage, w: World)
    ensures var after := SendSetup(s, setup, stage, w).state;
            && !WroteUserLine(s, after)
            && s.log <= after.log
            && after.mode == s.mode && after.model == s.model && after.effort == s.effort
            && after.setup == (if w.writeOk
                               then Some(setup.(stage := stage, id := s.nextId, sent := s.clock + w.writing,
                                                deadline := Min(s.clock + w.writing + CONTROL_TIMEOUT, setup.budget)))
                               else s.setup)
  {
  }

  predicate SameSettings(s: State, after: State) {
    && after.mode == s.mode && after.model == s.model && after.effort == s.effort && after.setup == s.setup
    && s.log <= after.log
  }

  lemma EmitInStep(s: State, o: Obs)
    ensures SameSettings(s, Emit(s, o))
    ensures o.UserLine? || !WroteUserLine(s, Emit(s, o))
  {
  }

  lemma ThenInStep(a: State, b: State, c: State)
    requires SameSettings(a, b) && SameSettings(b, c)
    ensures SameSettings(a, c)
    ensures !WroteUserLine(a, b) && !WroteUserLine(b, c) ==> !WroteUserLine(a, c)
  {
  }

  lemma BeginInStep(s: State, turn: TurnId, notice: Option<string>)
    ensures SameSettings(s, BeginTurn(s, turn, notice))
  {
  }

  lemma FinishInStep(s: State, setup: TurnSetup, w: World)
    ensures SameSettings(s, FinishTurnSetup(s, setup, w).state)
  {
    hide BeginTurn, Emit, SameSettings;
    EmitInStep(s, Settled(setup.reply, Dropped));
    EmitInStep(s, Settled(setup.reply, Failed(ThreadBusy)));
    if !w.gaveUp && s.mapper.active.None? {
      var begun := Passed(BeginTurn(s, setup.turn, setup.notice), w.writing);
      assert SameSettings(s, begun) by {
        BeginInStep(s, setup.turn, setup.notice);
        PassedInStep(s, BeginTurn(s, setup.turn, setup.notice), w.writing);
      }
      var o := UserLine(setup.reply, setup.turn, setup.line, setup.settings, s.mode, s.model, s.effort,
                        s.mapper.active, HandOffs(s), w.writeOk);
      EmitInStep(begun, o);
      ThenInStep(s, begun, Emit(begun, o));
      EmitInStep(Emit(begun, o), Settled(setup.reply, Written(w)));
      ThenInStep(s, Emit(begun, o), Emit(Emit(begun, o), Settled(setup.reply, Written(w))));
    }
  }

  lemma PassedInStep(s: State, after: State, time: nat)
    requires SameSettings(s, after)
    ensures SameSettings(s, Passed(after, time))
  {
  }

  lemma AdoptInStep(s: State, setup: TurnSetup, payload: Payload, w: World)
    requires payload.Success?
    ensures var held := Adopt(s, setup, payload, w);
            && held.mode == s.mode && held.effort == payload.appliedEffort && held.setup == s.setup
            && held.model.model == (if setup.modelChange.Some? then setup.model.model else s.model.model)
            && s.log <= held.log
  {
  }

  /** After an answer the hand-off goes on in step, or its user line found the CLI in step. */
  predicate Continues(catalog: Catalog, s: State, after: State, settings: TurnSettings, cli: Cli) {
    && InStep(catalog, after, cli)
    && (after.setup.Some? ==> after.setup.value.settings == settings && !WroteUserLine(s, after))
    && (WroteUserLine(s, after) ==> Tracks(catalog, after, cli) && Requested(catalog, settings, cli))
  }

  lemma ModeAnswered(catalog: Catalog, s: State, setup: TurnSetup, cli: Cli, w: World)
    requires s.setup.None? && ResolvedByFacade(catalog, s, setup)
    requires cli.mode == setup.settings.mode && s.effort == cli.effort
    requires SameModel(catalog, s.model.model, cli.model)
    requires setup.settings.model.Some? ==> setup.settings.model.value == setup.model.model
    ensures Continues(catalog, s, AfterMode(s, setup, w).state, setup.settings, cli)
    ensures s.log <= AfterMode(s, setup, w).state.log
  {
    var now, decided := s.(mode := setup.settings.mode), Decide(s, setup);
    DecidedWell(catalog, s, setup);
    hide SendSetup, FinishTurnSetup, WroteUserLine, Continues, Decide, ResolvedByFacade, Decided, SameModel;
    if decided.modelChange.Some? {
      ModeSends(catalog, s, now, decided, Model, cli, w);
    } else if decided.effortChange.Some? {
      ModeSends(catalog, s, now, decided, Effort, cli, w);
    } else {
      ModeFinishes(catalog, s, now, decided, cli, w);
    }
  }

  lemma DecidedWell(catalog: Catalog, s: State, setup: TurnSetup)
    ensures var decided := Decide(s, setup);
            && decided.settings == setup.settings && decided.model == setup.model
            && (ResolvedByFacade(catalog, s, decided) <==> ResolvedByFacade(catalog, s, setup))
            && (decided.modelChange.Some? || decided.effortChange.Some? ==>
                  Decided(decided, setup.settings.mode, s.model, s.effort))
            && (decided.modelChange.None? && decided.effortChange.None? ==>
                  && (setup.settings.model.Some? ==> setup.settings.model.value == s.model.model)
                  && (setup.settings.effort.Some? ==> setup.settings.effort == s.effort))
  {
  }

  /** Something has to change: its request goes out, with the CLI still in step. */
  lemma ModeSends(catalog: Catalog, s: State, now: State, decided: TurnSetup, stage: SetupStage, cli: Cli, w: World)
    requires now == s.(mode := decided.settings.mode) && s.setup.None? && ResolvedByFacade(catalog, s, decided)
    requires cli.mode == now.mode && s.effort == cli.effort && SameModel(catalog, s.model.model, cli.model)
    requires decided.settings.model.Some? ==> decided.settings.model.value == decided.model.model
    requires Decided(decided, now.mode, now.model, now.effort)
    requires (stage == Model && decided.modelChange.Some?)
             || (stage == Effort && decided.modelChange.None? && decided.effortChange.Some?)
    ensures Continues(catalog, s, SendSetup(now, decided, stage, w).state, decided.settings, cli)
    ensures s.log <= SendSetup(now, decided, stage, w).state.log
  {
    hide SendSetup, WroteUserLine;
    SendSetupInStep(now, decided, stage, w);
    SameLogWrites(s, now, SendSetup(now, decided, stage, w).state);
  }

  /** Nothing has to change: the turn itself finds the CLI in step. */
  lemma ModeFinishes(catalog: Catalog, s: State, now: State, decided: TurnSetup, cli: Cli, w: World)
    requires now == s.(mode := decided.settings.mode) && s.setup.None?
    requires cli.mode == now.mode && s.effort == cli.effort && SameModel(catalog, s.model.model, cli.model)
    requires decided.settings.model.Some? ==> decided.settings.model.value == s.model.model
    requires decided.settings.effort.Some? ==> decided.settings.effort == s.effort
    ensures Continues(catalog, s, FinishTurnSetup(now, decided, w).state, decided.settings, cli)
    ensures s.log <= FinishTurnSetup(now, decided, w).state.log
  {
    hide FinishTurnSetup, WroteUserLine;
    FinishInStep(now, decided, w);
    SameLogWrites(s, now, FinishTurnSetup(now, decided, w).state);
  }

  lemma SameLogWrites(s: State, now: State, after: State)
    requires now.log == s.log
    ensures WroteUserLine(s, after) <==> WroteUserLine(now, after)
  {
  }

  lemma ReadBackAnswered(catalog: Catalog, s: State, setup: TurnSetup, cli: Cli, w: World)
    requires s.setup.None? && ResolvedByFacade(catalog, s, setup)
    requires setup.settings.model.Some? ==> setup.settings.model.value == setup.model.model
    requires Decided(setup, s.mode, s.model, s.effort)
    requires s.mode == cli.mode && SameModel(catalog, Switched(s, setup), cli.model)
    ensures var after := AfterReadBack(s, setup, Success(Some(cli.model), cli.effort), w).state;
            && after.setup.None?
            && s.log <= after.log
            && Tracks(catalog, after, cli)
            && (WroteUserLine(s, after) ==> Requested(catalog, setup.settings, cli))
  {
    hide FinishTurnSetup, WroteUserLine, Adopt;
    var payload := Success(Some(cli.model), cli.effort);
    FinishInStep(Adopt(s, setup, payload, w), setup, w);
    AdoptInStep(s, setup, payload, w);
    assert ModelApplied(s, setup, payload);
    var held := Adopt(s, setup, payload, w);
    if setup.effortChange.Some? && payload.appliedEffort != setup.effortChange {
      NoUserLine(s, setup, payload, w);
    }
  }

  lemma NoUserLine(s: State, setup: TurnSetup, payload: Payload, w: World)
    requires payload.Success? && ModelApplied(s, setup, payload)
    requires setup.effortChange.Some? && payload.appliedEffort != setup.effortChange
    ensures !WroteUserLine(s, AfterReadBack(s, setup, payload, w).state)
  {
    hide FinishTurnSetup;
  }

  lemma SentInStep(catalog: Catalog, s: State, setup: TurnSetup, stage: SetupStage, cli: Cli, w: World)
    requires s.setup.None? && ResolvedByFacade(catalog, s, setup)
    requires setup.settings.model.Some? ==> setup.settings.model.value == setup.model.model
    requires Decided(setup, s.mode, s.model, s.effort) && s.mode == cli.mode
    requires SameModel(catalog, Switched(s, setup), cli.model)
    requires || (stage == ReadBack
                 && (setup.modelChange.None? ==> cli.effort == s.effort || cli.effort == setup.effortChange))
             || (stage == Effort && setup.effortChange.Some?
                 && (setup.modelChange.None? ==> s.effort == cli.effort))
    ensures Continues(catalog, s, SendSetup(s, setup, stage, w).state, setup.settings, cli)
    ensures s.log <= SendSetup(s, setup, stage, w).state.log
  {
    hide SendSetup, WroteUserLine;
    SendSetupInStep(s, setup, stage, w);
  }

  /** Each faithful answer keeps a hand-off that began in step with the CLI in step with it; the
      answer that writes the user line leaves the CLI holding what was asked for, and tracked. */
  lemma AnswerInStep(catalog: Catalog, s: State, cli: Cli, payload: Payload, after: Cli, w: World)
    requires s.setup.Some? && InStep(catalog, s, cli)
    requires Faithful(catalog, s.setup.value, cli, payload, after)
    ensures Continues(catalog, s, OnSetupResponse(s, payload, w).state, s.setup.value.settings, after)
  {
    hide SendSetup, AfterMode, AfterReadBack, Continues;
    var setup := s.setup.value;
    var taken := Emit(s.(setup := None), Answered(setup.id, payload, SceneOf(s, w)));
    var r := OnSetupResponse(s, payload, w).state;
    if !payload.Success? {
      RefusedInStep(catalog, s, payload, w, after);
    } else {
      match setup.stage {
        case Mode => ModeAnswered(catalog, taken, setup, after, w);
        case Model =>
          SentInStep(catalog, taken, setup, if setup.effortChange.Some? then Effort else ReadBack, after, w);
        case Effort => SentInStep(catalog, taken, setup, ReadBack, after, w);
        case ReadBack =>
          ReadBackAnswered(catalog, taken, setup, after, w);
          ReadBackOver(catalog, taken, setup, after, r);
      }
      Shorter(catalog, s, taken, r, setup.settings, after);
    }
  }

  lemma RefusedInStep(catalog: Catalog, s: State, payload: Payload, w: World, cli: Cli)
    requires s.setup.Some? && !payload.Success?
    ensures Continues(catalog, s, OnSetupResponse(s, payload, w).state, s.setup.value.settings, cli)
  {
  }

  lemma ReadBackOver(catalog: Catalog, s: State, setup: TurnSetup, cli: Cli, after: State)
    requires after.setup.None? && Tracks(catalog, after, cli)
    requires WroteUserLine(s, after) ==> Requested(catalog, setup.settings, cli)
    ensures Continues(catalog, s, after, setup.settings, cli)
  {
  }

  /** A user line after `taken`, which logged one more observation than `s`. */
  lemma Shorter(catalog: Catalog, s: State, taken: State, after: State, settings: TurnSettings, cli: Cli)
    requires Continues(catalog, taken, after, settings, cli)
    requires |taken.log| == |s.log| + 1 && taken.log <= after.log && !taken.log[|s.log|].UserLine?
    ensures Continues(catalog, s, after, settings, cli)
  {
  }

  // ---- What leaves a hand-off alone -----------------------------------------------------------------------

  predicate LeavesHandOff(s: State, after: State) {
    SameSettings(s, after) && !WroteUserLine(s, after)
  }

  lemma EmitTwice(s: State, o: Obs, p: Obs)
    requires !o.UserLine? && !p.UserLine?
    ensures LeavesHandOff(s, Emit(Emit(s, o), p))
  {
    hide Emit, SameSettings, WroteUserLine;
    EmitInStep(s, o);
    EmitInStep(Emit(s, o), p);
    ThenInStep(s, Emit(s, o), Emit(Emit(s, o), p));
  }

  /** Only its own answer moves a hand-off or writes its line. */
  lemma FrameLeavesHandOff(s: State, output: Output, w: World)
    requires !(s.setup.Some? && output.ControlResponse? && output.id == s.setup.value.id)
    ensures LeavesHandOff(s, Dispatch(s, output, w).state)
  {
    match output
    case ControlResponse(id, payload) => ResponseLeavesHandOff(s, id, payload, w);
    case CancelRequest(ask) => CancelLeavesHandOff(s, ask, w.pending);
    case RouteClosed(thread) => EmitTwice(s, RouteLeft(thread), AsksForgotten(w.asks));
    case Event =>
    case Reply =>
    case PendingAsk(_, _) =>
    case RouteOpened(_) =>
    case RouteReopened(_) =>
  }

  lemma ResponseLeavesHandOff(s: State, id: RequestId, payload: Payload, w: World)
    requires s.setup.Some? ==> id != s.setup.value.id
    ensures LeavesHandOff(s, OnControlResponse(s, id, payload, w).state)
  {
    hide OnSetupResponse, Emit, LeavesHandOff;
    if id in s.waiters {
      var waiter := s.waiters[id];
      var base := s.(waiters := s.waiters - {id});
      ThenTwice(s, base, Answered(id, payload, SceneOf(s, w)),
                if waiter.NobodyWaits? then Answered(id, payload, SceneOf(s, w))
                else Settled(waiter.reply, WaiterOutcome(waiter, payload)));
      FirstOfTwo(s, base, Answered(id, payload, SceneOf(s, w)));
    } else if id in s.abandoned {
      FirstOfTwo(s, s.(abandoned := s.abandoned - {id}), Answered(id, payload, SceneOf(s, w)));
    } else {
      FirstOfTwo(s, s, Unmatched(id));
    }
  }

  lemma FirstOfTwo(s: State, base: State, o: Obs)
    requires SameSettings(s, base) && base.log == s.log && !o.UserLine?
    ensures LeavesHandOff(s, Emit(base, o))
  {
  }

  lemma CancelLeavesHandOff(s: State, ask: AskId, found: Option<AskKind>)
    ensures LeavesHandOff(s, OnCancelRequest(s, ask, found))
  {
  }

  lemma SendLeavesHandOff(s: State, what: ControlKind, waiter: Waiter, reply: Token, w: World)
    ensures LeavesHandOff(s, SendAwaited(s, what, waiter, reply, w).state)
  {
  }

  /** Two observations on a state that differs from `s` only beside the hand-off. */
  lemma ThenTwice(s: State, base: State, o: Obs, p: Obs)
    requires SameSettings(s, base) && base.log == s.log
    requires !o.UserLine? && !p.UserLine?
    ensures LeavesHandOff(s, Emit(Emit(base, o), p))
  {
    EmitTwice(base, o, p);
  }

  lemma ThenOnce(s: State, base: State, after: State, o: Obs)
    requires LeavesHandOff(s, base) && !o.UserLine? && after == Emit(base, o)
    ensures LeavesHandOff(s, after)
  {
    hide Emit, SameSettings, WroteUserLine;
    EmitInStep(base, o);
    ThenInStep(s, base, after);
  }

  lemma ApprovalLeavesHandOff(s: State, c: Command, w: World)
    requires c.RespondApproval?
    ensures LeavesHandOff(s, RespondToApproval(s, c, w).state)
  {
    hide Emit, LeavesHandOff;
    if c.ask in s.withdrawn {
      ThenTwice(s, s.(withdrawn := s.withdrawn - {c.ask}), AskRefused(c.ask), Settled(c.reply, Failed(Withdrawn)));
    } else if w.gaveUp {
      ThenTwice(s, s, AskReinserted(Approval, c.ask), Settled(c.reply, Dropped));
    } else if c.decision == ExecPolicyAmendment {
      ThenTwice(s, s, AskReinserted(Approval, c.ask), Settled(c.reply, Failed(UnsupportedDecision)));
    } else {
      var told := s.(interruptSent := s.interruptSent || c.decision == Cancel);
      ThenTwice(s, Passed(told, w.writing), AskAnswered(Approval, c.ask, Some(c.decision), w.writeOk),
                Settled(c.reply, Written(w)));
    }
  }

  lemma ServerRequestLeavesHandOff(s: State, c: Command, w: World)
    requires c.RespondServerRequest?
    ensures LeavesHandOff(s, RespondToServerRequest(s, c, w).state)
  {
    hide Emit, LeavesHandOff;
    var cleared := if s.reaped then OutputDropped else AskCleared(c.ask);
    if c.ask in s.withdrawn {
      var base := s.(withdrawn := s.withdrawn - {c.ask});
      ThenTwice(s, base, AskRefused(c.ask), cleared);
      var refused := Emit(base, AskRefused(c.ask));
      assert refused.reaped == s.reaped by { ReapedEmitted(base, AskRefused(c.ask)); }
      ThenOnce(s, Emit(refused, cleared), Settle(Emit(refused, cleared), c.reply, Failed(Withdrawn)),
               Settled(c.reply, Failed(Withdrawn)));
    } else if w.gaveUp {
      ThenTwice(s, s, AskReinserted(ServerRequest, c.ask), Settled(c.reply, Dropped));
    } else if !c.fits {
      ThenTwice(s, s, AskReinserted(ServerRequest, c.ask), Settled(c.reply, Failed(UnfitAnswer)));
    } else {
      var base := Passed(s, w.writing);
      var o := AskAnswered(ServerRequest, c.ask, None, w.writeOk);
      if w.writeOk {
        ThenTwice(s, base, o, cleared);
        assert Emit(base, o).reaped == s.reaped by { ReapedEmitted(base, o); }
        ThenOnce(s, Emit(Emit(base, o), cleared), Settle(Emit(Emit(base, o), cleared), c.reply, Done),
                 Settled(c.reply, Done));
      } else {
        ThenTwice(s, base, o, Settled(c.reply, Failed(WriteFailed)));
      }
    }
  }

  lemma ReapedEmitted(s: State, o: Obs)
    ensures Emit(s, o).reaped == s.reaped
  {
  }

  lemma InterruptLeaves(s: State, c: Command, w: World)
    requires c.Interrupt?
    ensures LeavesHandOff(s, InterruptTurn(s, c, w).state)
  {
    hide SendAwaited;
    SendLeavesHandOff(s, UserInterrupt, UnitWaiter(c.reply), c.reply, w);
  }

  lemma TellingLeaves(s: State, reply: Token, outcome: Outcome)
    ensures LeavesHandOff(s, Settle(s, reply, outcome))
  {
  }

  lemma CommandLeavesHandOff(s: State, c: Command, w: World)
    requires s.setup.Some? && !c.Stop?
    ensures LeavesHandOff(s, HandleCommand(s, c, w).state)
  {
    hide SendAwaited, RespondToApproval, RespondToServerRequest, SendSetup, BeginTurn, EnterStopping, LeavesHandOff,
      Emit;
    forall outcome ensures LeavesHandOff(s, Settle(s, c.reply, outcome)) {
      TellingLeaves(s, c.reply, outcome);
    }
    match c
    case RespondApproval(_, _, _) => ApprovalLeavesHandOff(s, c, w);
    case RespondServerRequest(_, _, _) => ServerRequestLeavesHandOff(s, c, w);
    case Interrupt(_) => InterruptLeaves(s, c, w);
    case Control(reply) => SendLeavesHandOff(s, PlainControl, ValueWaiter(reply), reply, w);
    case StopTask(reply) => SendLeavesHandOff(s, TaskStop, TaskWaiter(reply), reply, w);
    case StopBackgroundCommand(reply) => SendLeavesHandOff(s, CommandStop, UnitWaiter(reply), reply, w);
    case _ =>
  }

  /** A hand-off begins in step whenever the supervisor tracks what the CLI holds. */
  lemma BeginsInStep(catalog: Catalog, s: State, c: Command, w: World, cli: Cli)
    requires c.StartTurn? && FromFacade(c)
    requires s.setup.None? && s.mapper.active.None? && !w.gaveUp
    requires Tracks(catalog, s, cli)
    requires c.settings.resolvedModel
             == Resolved(catalog, if c.settings.model.Some? then c.settings.model.value else s.model.model)
    ensures InStep(catalog, BeginTurnSetup(s, c, w).state, cli)
    ensures BeginTurnSetup(s, c, w).state.setup.Some? <==> w.writeOk
  {
  }

  // ---- How a hand-off ends -------------------------------------------------------------------

  /** Without an answer (a timeout, a stop, the child's end), or with its last one. */
  datatype How = Refusal | Acceptance | Silence

  /** The hand-off as it was in flight, the mode tracked by then, and how it ended. */
  datatype HandOffEnd = HandOffEnd(setup: TurnSetup, mode: string, how: How)

  /** What can be told from the supervisor's side alone: the CLI must still hold what is tracked. A
      refusal is safe before the CLI may have taken a model or an effort; an accepted stage that is
      the last one is safe once the mode is in or everything was read back; silence is safe only
      while the mode is asked for that is tracked already. */
  predicate Assured(end: HandOffEnd) {
    match end.how
    case Refusal =>
      end.setup.stage == Mode || end.setup.stage == Model || (end.setup.stage == Effort && end.setup.modelChange.None?)
    case Acceptance => end.setup.stage == Mode || end.setup.stage == ReadBack
    case Silence => end.setup.stage == Mode && end.setup.settings.mode == end.mode
  }

  /** A request that was never answered: the CLI took it or did not. */
  predicate Unanswered(catalog: Catalog, setup: TurnSetup, cli: Cli, after: Cli) {
    after == cli || Faithful(catalog, setup, cli, Success(Some(cli.model), cli.effort), after)
  }

  function AnsweredEnd(s: State, payload: Payload): HandOffEnd
    requires s.setup.Some?
  {
    HandOffEnd(s.setup.value, s.mode, if payload.Success? then Acceptance else Refusal)
  }

  lemma AssuredAnswerTracks(catalog: Catalog, s: State, cli: Cli, payload: Payload, after: Cli, w: World)
    requires s.setup.Some? && InStep(catalog, s, cli)
    requires Faithful(catalog, s.setup.value, cli, payload, after)
    requires OnSetupResponse(s, payload, w).state.setup.None? && Assured(AnsweredEnd(s, payload))
    ensures Tracks(catalog, OnSetupResponse(s, payload, w).state, after)
  {
    hide SendSetup, FinishTurnSetup, AfterReadBack, WroteUserLine;
    var setup := s.setup.value;
    var taken := Emit(s.(setup := None), Answered(setup.id, payload, SceneOf(s, w)));
    if payload.Success? {
      match setup.stage
      case Mode => ModeOver(catalog, taken, setup, after, w);
      case ReadBack => ReadBackAnswered(catalog, taken, setup, after, w);
      case Model =>
      case Effort =>
    }
  }

  lemma ModeOver(catalog: Catalog, s: State, setup: TurnSetup, cli: Cli, w: World)
    requires s.setup.None?
    requires cli.mode == setup.settings.mode && s.effort == cli.effort
    requires SameModel(catalog, s.model.model, cli.model)
    ensures Tracks(catalog, AfterMode(s, setup, w).state, cli)
  {
    hide SendSetup, FinishTurnSetup, WroteUserLine;
    var now := s.(mode := setup.settings.mode);
    forall decided: TurnSetup, stage ensures KeepsSettings(now, SendSetup(now, decided, stage, w).state) {
      SendSetupInStep(now, decided, stage, w);
    }
    forall decided: TurnSetup ensures KeepsSettings(now, FinishTurnSetup(now, decided, w).state) {
      FinishInStep(now, decided, w);
    }
  }

  predicate KeepsSettings(s: State, after: State) {
    after.mode == s.mode && after.model == s.model && after.effort == s.effort
  }

  /** A hand-off that ends at an answer before its model and effort were read back changes nothing
      tracked. */
  lemma UnassuredAnswerKeeps(s: State, payload: Payload, w: World)
    requires s.setup.Some? && OnSetupResponse(s, payload, w).state.setup.None?
    requires !Assured(AnsweredEnd(s, payload))
    ensures KeepsSettings(s, OnSetupResponse(s, payload, w).state)
  {
    hide AfterMode, AfterReadBack, SendSetup;
    var setup := s.setup.value;
    var taken := Emit(s.(setup := None), Answered(setup.id, payload, SceneOf(s, w)));
    if payload.Success? {
      SendSetupInStep(taken, setup, if setup.stage == Model && setup.effortChange.Some? then Effort else ReadBack, w);
    }
  }

  lemma AssuredSilenceTracks(catalog: Catalog, s: State, cli: Cli, after: Cli)
    requires s.setup.Some? && InStep(catalog, s, cli) && Unanswered(catalog, s.setup.value, cli, after)
    requires Assured(HandOffEnd(s.setup.value, s.mode, Silence))
    ensures Tracks(catalog, s, after)
  {
  }

  // ---- What the CLI may hold unseen ----------------------------------------------------------

  function OtherEffort(effort: Option<string>): Option<string> {
    if effort.None? then Some("") else None
  }

  /** Two things the CLI may hold at one and the same moment of a hand-off, and go on to hold, when
      it ends as `end` does: the supervisor tracks at most one of them. */
  lemma UnassuredEndCanLag(catalog: Catalog, s: State, known: Cli, payload: Option<Payload>)
    returns (cli: Cli, after: Cli)
    requires s.setup.Some? && InStep(catalog, s, known)
    requires !Assured(if payload.Some? then AnsweredEnd(s, payload.value)
                      else HandOffEnd(s.setup.value, s.mode, Silence))
    ensures InStep(catalog, s, cli)
    ensures if payload.Some? then Faithful(catalog, s.setup.value, cli, payload.value, after)
            else Unanswered(catalog, s.setup.value, cli, after)
    ensures !Tracks(catalog, s, after)
  {
    var setup := s.setup.value;
    var tracked := Cli(s.mode, s.model.model, s.effort);
    var taken := payload.None? || payload.value.Success?;
    match setup.stage
    case Mode =>
      cli, after := tracked, tracked.(mode := setup.settings.mode);
    case Model =>
      cli, after := tracked, Cli(s.mode, setup.modelChange.value, OtherEffort(s.effort));
    case Effort =>
      if setup.modelChange.Some? {
        cli := Cli(s.mode, setup.modelChange.value, OtherEffort(s.effort));
        after := cli;
      } else {
        cli, after := tracked, tracked.(effort := setup.effortChange);
      }
    case ReadBack =>
      cli := if setup.modelChange.Some? then Cli(s.mode, setup.modelChange.value, OtherEffort(s.effort))
             else tracked.(effort := setup.effortChange);
      after := cli;
  }

  /** Whatever the CLI may hold after an accepted stage, it may have come to hold by accepting it. */
  lemma AnswerHasAPast(catalog: Catalog, s: State, known: Cli, payload: Payload, w: World, held: Cli)
    returns (cli: Cli)
    requires s.setup.Some? && InStep(catalog, s, known)
    requires var r := OnSetupResponse(s, payload, w).state; r.setup.Some? && InStep(catalog, r, held)
    ensures InStep(catalog, s, cli) && Faithful(catalog, s.setup.value, cli, payload, held)
  {
    hide FinishTurnSetup, AfterReadBack, SendSetup, WroteUserLine;
    var setup := s.setup.value;
    var taken := Emit(s.(setup := None), Answered(setup.id, payload, SceneOf(s, w)));
    AnswerGoesOn(s, payload, w);
    match setup.stage
    case Mode => cli := held.(mode := s.mode);
    case Model => cli := Cli(held.mode, s.model.model, s.effort);
    case Effort => cli := if setup.modelChange.Some? then held else held.(effort := s.effort);
    case ReadBack => cli := held;
  }

  /** An answer after which the hand-off is still in flight was accepted, and the next stage is on. */
  lemma AnswerGoesOn(s: State, payload: Payload, w: World)
    requires s.setup.Some?
    ensures var setup := s.setup.value;
            var r := OnSetupResponse(s, payload, w).state;
            r.setup.Some? ==>
              && payload.Success?
              && setup.stage != ReadBack
              && r.setup.value.settings == setup.settings
              && r.model == s.model && r.effort == s.effort
              && r.mode == (if setup.stage == Mode then setup.settings.mode else s.mode)
              && (match setup.stage
                  case Mode =>
                    && r.setup.value.stage == (if r.setup.value.modelChange.Some? then Model else Effort)
                    && (r.setup.value.stage == Effort ==> r.setup.value.modelChange.None?)
                  case Model => r.setup.value.stage == (if setup.effortChange.Some? then Effort else ReadBack)
                  case Effort => r.setup.value.stage == ReadBack
                  case ReadBack => true)
              && (setup.stage != Mode ==>
                    && r.setup.value.modelChange == setup.modelChange
                    && r.setup.value.effortChange == setup.effortChange)
  {
    hide FinishTurnSetup, AfterReadBack, SendSetup, WroteUserLine;
    var setup := s.setup.value;
    var taken := Emit(s.(setup := None), Answered(setup.id, payload, SceneOf(s, w)));
    if payload.Success? {
      match setup.stage
      case Mode => ModeGoesOn(taken, setup, w);
      case Model => SendSetupInStep(taken, setup, if setup.effortChange.Some? then Effort else ReadBack, w);
      case Effort => SendSetupInStep(taken, setup, ReadBack, w);
      case ReadBack => ReadBackEnds(taken, setup, payload, w);
    }
  }

  lemma ReadBackEnds(s: State, setup: TurnSetup, payload: Payload, w: World)
    requires payload.Success? && s.setup.None?
    ensures AfterReadBack(s, setup, payload, w).state.setup.None?
  {
    hide FinishTurnSetup, WroteUserLine, ModelApplied;
    FinishInStep(Adopt(s, setup, payload, w), setup, w);
  }

  lemma ModeGoesOn(s: State, setup: TurnSetup, w: World)
    requires s.setup.None?
    ensures var r := AfterMode(s, setup, w).state;
            r.setup.Some? ==>
              && r.setup.value.settings == setup.settings
              && r.model == s.model && r.effort == s.effort && r.mode == setup.settings.mode
              && r.setup.value.stage == (if r.setup.value.modelChange.Some? then Model else Effort)
  {
    hide SendSetup, FinishTurnSetup, WroteUserLine;
    var now := s.(mode := setup.settings.mode);
    forall decided: TurnSetup, stage: SetupStage
      ensures var r := SendSetup(now, decided, stage, w).state;
              r.setup.Some? ==>
                && r.setup.value.settings == decided.settings && KeepsSettings(now, r)
                && r.setup.value.modelChange == decided.modelChange && r.setup.value.stage == stage
    {
      SendSetupInStep(now, decided, stage, w);
    }
    forall decided: TurnSetup ensures FinishTurnSetup(now, decided, w).state.setup.None? {
      FinishInStep(now, decided, w);
    }
  }
}
