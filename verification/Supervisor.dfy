/** The supervisor's task: one object that owns a child's state and updates it in place, each
    method proved against its specification in `Steps`. */
module Supervision {
  import opened Protocol
  import opened Trace
  import opened Steps
  import Invariant

  class Supervisor {
    var life: Life
    var phase: Phase
    var setup: Option<TurnSetup>
    var waiters: map<RequestId, Waiter>
    var abandoned: set<RequestId>
    var withdrawn: set<AskId>
    var currentMode: string
    var currentModel: ModelRef
    var currentEffort: Option<string>
    var interruptSent: bool
    var failed: bool
    const idleTimeout: Option<nat>
    var idleSince: Option<Instant>
    var lastLine: Instant
    var awaitingSince: Option<Instant>
    var reaped: bool
    var commandsClosed: bool
    var clock: Instant
    var nextId: RequestId
    var mapper: MapperView
    /** What the supervisor did so far. */
    ghost var log: seq<Obs>

    ghost function Abs(): State
      reads this
    {
      State(life, phase, setup, waiters, abandoned, withdrawn, currentMode, currentModel, currentEffort,
            interruptSent, failed, idleTimeout, idleSince, lastLine, awaitingSince, reaped, commandsClosed,
            clock, nextId, mapper, log)
    }

    constructor (model: ModelRef, idleTimeout: Option<nat>, inherited: set<RequestId>, firstId: RequestId,
                 now: Instant, mapper: MapperView)
      ensures Abs() == Spawned(model, idleTimeout, inherited, firstId, now, mapper)
    {
      life, phase, setup, waiters, abandoned, withdrawn := Early, Serving, None, map[], inherited, {};
      currentMode, currentModel, currentEffort := "default", model, model.effort;
      interruptSent, failed, this.idleTimeout, idleSince, lastLine := false, false, idleTimeout, None, now;
      awaitingSince, reaped, commandsClosed, clock, nextId := None, false, false, now, firstId;
      this.mapper, log := mapper, [Inherited(inherited, firstId, model)];
    }

    // ---- Observing, waiting, writing ---------------------------------------------------------

    ghost method Note(o: Obs)
      modifies this`log
      ensures Abs() == Emit(old(Abs()), o)
    {
      log := log + [o];
    }

    ghost method Reply(reply: Token, outcome: Outcome)
      modifies this`log
      ensures Abs() == Settle(old(Abs()), reply, outcome)
    {
      Note(Settled(reply, outcome));
    }

    /** Append an event to the thread's log, unless the child was reaped. */
    method Append(ghost o: Obs)
      modifies this`log
      ensures Abs() == Publish(old(Abs()), o)
    {
      if reaped {
        Note(OutputDropped);
      } else {
        Note(o);
      }
    }

    method Sleep(time: nat)
      modifies this`clock
      ensures Abs() == Passed(old(Abs()), time)
    {
      clock := clock + time;
    }

    method WriteControl(ghost what: ControlKind, ghost caller: Option<Token>, w: World) returns (id: RequestId)
      modifies this`clock, this`nextId, this`log
      ensures Abs() == SendControl(old(Abs()), what, caller, w) && id == old(nextId)
    {
      id := nextId;
      nextId := nextId + 1;
      Sleep(w.writing);
      Note(ControlSent(id, what, caller, clock, w.writeOk));
    }

    method WriteAwaited(ghost what: ControlKind, waiter: Waiter, ghost reply: Token, w: World) returns (ok: bool)
      modifies this
      ensures Result(Abs(), ok) == SendAwaited(old(Abs()), what, waiter, reply, w)
    {
      var id := WriteControl(what, Some(reply), w);
      ok := w.writeOk;
      if ok {
        waiters := waiters[id := waiter];
      } else {
        Reply(reply, Failed(WriteFailed));
      }
    }

    predicate Stops()
      reads this
    {
      phase.Halting?
    }

    // ---- The hand-off of a turn --------------------------------------------------------------

    method BeginHandOff(c: Command, w: World) returns (ok: bool)
      requires c.StartTurn?
      modifies this
      ensures Result(Abs(), ok) == BeginTurnSetup(old(Abs()), c, w)
      // The hand-off in flight is this command's.
      ensures old(setup).None? && setup.Some? ==>
                && setup.value.stage.Mode?
                && c == Command.StartTurn(setup.value.line, setup.value.turn, setup.value.model,
                                          setup.value.settings, setup.value.notice, setup.value.reply)
    {
      if w.gaveUp {
        Reply(c.reply, Dropped);
        return true;
      }
      if mapper.active.Some? || setup.Some? {
        Reply(c.reply, Failed(ThreadBusy));
        return true;
      }
      Note(HandOffBegan(c.reply, clock));
      var begun := TurnSetup(c.line, c.turn, c.model, c.settings, c.notice, c.reply, Mode, 0,
                             clock + TURN_SETTINGS_BUDGET, clock, clock, None, None);
      ok := SendSetupRequest(begun, Mode, w);
    }

    method SendSetupRequest(inHand: TurnSetup, stage: SetupStage, w: World) returns (ok: bool)
      modifies this
      ensures Result(Abs(), ok) == SendSetup(old(Abs()), inHand, stage, w)
    {
      ok := w.writeOk;
      var id, deadline := WriteSettings(inHand, stage, w);
      if ok {
        setup := Some(inHand.(stage := stage, id := id, sent := clock, deadline := deadline));
      } else {
        Reply(inHand.reply, Failed(WriteFailed));
      }
    }

    method WriteSettings(inHand: TurnSetup, ghost stage: SetupStage, w: World)
      returns (id: RequestId, deadline: Instant)
      modifies this`nextId, this`clock, this`log
      ensures id == old(nextId) && deadline == Min(clock + CONTROL_TIMEOUT, inHand.budget)
      ensures var s := old(Abs());
              Abs() == Emit(Passed(s, w.writing).(nextId := s.nextId + 1),
                            SettingsSent(inHand.reply, stage, WishOf(inHand, stage), id, s.clock + w.writing,
                                         deadline, inHand.budget, w.writeOk))
    {
      id := nextId;
      nextId := nextId + 1;
      Sleep(w.writing);
      deadline := Min(clock + CONTROL_TIMEOUT, inHand.budget);
      Note(SettingsSent(inHand.reply, stage, WishOf(inHand, stage), id, clock, deadline, inHand.budget, w.writeOk));
    }

    method OnSetupAnswer(payload: Payload, w: World) returns (ok: bool)
      requires setup.Some?
      modifies this
      ensures Result(Abs(), ok) == OnSetupResponse(old(Abs()), payload, w)
    {
      hide SendSetup, AfterMode, AfterReadBack, StageRefused;
      ghost var scene := SceneOf(Abs(), w);
      var inHand := setup.value;
      setup := None;
      Note(Answered(inHand.id, payload, scene));
      if !payload.Success? {
        Reply(inHand.reply, Failed(StageRefused(inHand.stage, payload)));
        return true;
      }
      match inHand.stage
      case Mode => ok := OnModeSet(inHand, w);
      case Model => ok := SendSetupRequest(inHand, if inHand.effortChange.Some? then Effort else ReadBack, w);
      case Effort => ok := SendSetupRequest(inHand, ReadBack, w);
      case ReadBack => ok := CheckReadBack(inHand, payload, w);
    }

    method OnModeSet(inHand: TurnSetup, w: World) returns (ok: bool)
      modifies this
      ensures Result(Abs(), ok) == AfterMode(old(Abs()), inHand, w)
    {
      hide SendSetup, FinishTurnSetup;
      currentMode := inHand.settings.mode;
      var modelChange := None;
      if inHand.settings.model.Some? && inHand.settings.model.value != currentModel.model {
        modelChange := inHand.settings.model;
      }
      var effortChange := None;
      if inHand.settings.effort.Some? && (modelChange.Some? || inHand.settings.effort != currentEffort) {
        effortChange := inHand.settings.effort;
      }
      var decided := inHand.(modelChange := modelChange, effortChange := effortChange);
      if modelChange.Some? {
        ok := SendSetupRequest(decided, Model, w);
      } else if effortChange.Some? {
        ok := SendSetupRequest(decided, Effort, w);
      } else {
        ok := FinishHandOff(decided, w);
      }
    }

    method CheckReadBack(inHand: TurnSetup, payload: Payload, w: World) returns (ok: bool)
      requires payload.Success?
      modifies this
      ensures Result(Abs(), ok) == AfterReadBack(old(Abs()), inHand, payload, w)
    {
      hide FinishTurnSetup, Settle;
      var wanted := if inHand.settings.model.Some? then inHand.settings.model.value else currentModel.model;
      var applied := payload.appliedModel;
      if applied.None? || (applied.value != wanted && inHand.settings.resolvedModel != applied) {
        Reply(inHand.reply, Failed(WrongModel(applied, wanted)));
        return true;
      }
      if inHand.modelChange.Some? {
        currentModel := inHand.model;
      }
      currentEffort := payload.appliedEffort;
      currentModel := currentModel.(effort := payload.appliedEffort);
      if w.holdsEntry {
        Note(EntrySynced(currentModel));
      }
      if inHand.effortChange.Some? && payload.appliedEffort != inHand.effortChange {
        Reply(inHand.reply, Failed(EffortNotTaken(inHand.effortChange.value, wanted)));
        return true;
      }
      ok := FinishHandOff(inHand, w);
    }

    method StartTurn(turn: TurnId, notice: Option<string>)
      modifies this
      ensures Abs() == BeginTurn(old(Abs()), turn, notice)
    {
      withdrawn := {};
      mapper := mapper.(active := Some(turn));
      Append(TurnStarted(turn));
      if notice.Some? {
        Append(Noticed(turn, notice.value));
      }
    }

    method FinishHandOff(inHand: TurnSetup, w: World) returns (ok: bool)
      modifies this
      ensures Result(Abs(), ok) == FinishTurnSetup(old(Abs()), inHand, w)
    {
      hide BeginTurn;
      if w.gaveUp {
        Reply(inHand.reply, Dropped);
        return true;
      }
      if mapper.active.Some? {
        Reply(inHand.reply, Failed(ThreadBusy));
        return true;
      }
      ghost var before := Abs();
      StartTurn(inHand.turn, inHand.notice);
      Sleep(w.writing);
      Note(UserLine(inHand.reply, inHand.turn, inHand.line, inHand.settings, before.mode, before.model,
                    before.effort, before.mapper.active, HandOffs(before), w.writeOk));
      Reply(inHand.reply, Written(w));
      return w.writeOk;
    }

    method OnHandOffDeadline()
      modifies this
      ensures Abs() == OnSetupDeadline(old(Abs()))
    {
      if setup.None? {
        return;
      }
      var inHand := setup.value;
      var waited := if inHand.deadline >= inHand.sent then inHand.deadline - inHand.sent else 0;
      setup := None;
      abandoned := abandoned + {inHand.id};
      Reply(inHand.reply, Failed(TimedOut(inHand.stage, waited)));
    }

    // ---- Other commands ----------------------------------------------------------------------

    method AnswerApproval(c: Command, w: World) returns (ok: bool)
      requires c.RespondApproval?
      modifies this
      ensures Result(Abs(), ok) == RespondToApproval(old(Abs()), c, w)
    {
      if c.ask in withdrawn {
        withdrawn := withdrawn - {c.ask};
        Note(AskRefused(c.ask));
        Reply(c.reply, Failed(Withdrawn));
        return true;
      }
      if w.gaveUp {
        Note(AskReinserted(Approval, c.ask));
        Reply(c.reply, Dropped);
        return true;
      }
      if c.decision == ExecPolicyAmendment {
        Note(AskReinserted(Approval, c.ask));
        Reply(c.reply, Failed(UnsupportedDecision));
        return true;
      }
      if c.decision == Cancel {
        interruptSent := true;
      }
      Sleep(w.writing);
      Note(AskAnswered(Approval, c.ask, Some(c.decision), w.writeOk));
      Reply(c.reply, Written(w));
      return w.writeOk;
    }

    method AnswerServerRequest(c: Command, w: World) returns (ok: bool)
      requires c.RespondServerRequest?
      modifies this
      ensures Result(Abs(), ok) == RespondToServerRequest(old(Abs()), c, w)
    {
      if c.ask in withdrawn {
        withdrawn := withdrawn - {c.ask};
        Note(AskRefused(c.ask));
        Append(AskCleared(c.ask));
        Reply(c.reply, Failed(Withdrawn));
        return true;
      }
      if w.gaveUp {
        Note(AskReinserted(ServerRequest, c.ask));
        Reply(c.reply, Dropped);
        return true;
      }
      if !c.fits {
        Note(AskReinserted(ServerRequest, c.ask));
        Reply(c.reply, Failed(UnfitAnswer));
        return true;
      }
      Sleep(w.writing);
      Note(AskAnswered(ServerRequest, c.ask, None, w.writeOk));
      if !w.writeOk {
        Reply(c.reply, Failed(WriteFailed));
        return false;
      }
      Append(AskCleared(c.ask));
      Reply(c.reply, Done);
      return true;
    }

    method StopSubAgentTask(c: Command, w: World) returns (ok: bool)
      requires c.StopTask?
      modifies this
      ensures Result(Abs(), ok) == StopSubAgent(old(Abs()), c, w)
    {
      ok := true;
      match w.task
      case NotYetStarted => Reply(c.reply, Failed(NotStarted));
      case Ended => Reply(c.reply, Done);
      case NoRoute => Reply(c.reply, Failed(NotARoute));
      case Running => ok := WriteAwaited(TaskStop, TaskWaiter(c.reply), c.reply, w);
    }

    method StopBackground(c: Command, w: World) returns (ok: bool)
      requires c.StopBackgroundCommand?
      modifies this
      ensures Result(Abs(), ok) == StopCommand(old(Abs()), c, w)
    {
      if !w.command {
        Reply(c.reply, Failed(NoBackgroundCommand));
        return true;
      }
      ok := WriteAwaited(CommandStop, UnitWaiter(c.reply), c.reply, w);
    }

    method RunCompaction(c: Command, w: World) returns (ok: bool)
      requires c.Compact?
      modifies this
      ensures Result(Abs(), ok) == CompactTurn(old(Abs()), c, w)
    {
      hide BeginTurn;
      if w.gaveUp {
        Reply(c.reply, Dropped);
        return true;
      }
      if mapper.active.Some? || setup.Some? {
        Reply(c.reply, Failed(ThreadBusy));
        return true;
      }
      ghost var before := Abs();
      StartTurn(c.turn, c.notice);
      Sleep(w.writing);
      Note(CompactLine(c.reply, c.turn, before.mapper.active, HandOffs(before), w.writeOk));
      Reply(c.reply, Written(w));
      return w.writeOk;
    }

    method Interrupt(c: Command, w: World) returns (ok: bool)
      requires c.Interrupt?
      modifies this
      ensures Result(Abs(), ok) == InterruptTurn(old(Abs()), c, w)
    {
      hide SendAwaited;
      ok := WriteAwaited(UserInterrupt, UnitWaiter(c.reply), c.reply, w);
      if ok {
        interruptSent := true;
      }
    }

    method Handle(c: Command, w: World) returns (ok: bool)
      modifies this
      ensures Result(Abs(), ok) == HandleCommand(old(Abs()), c, w)
    {
      hide BeginTurnSetup, InterruptTurn, SendAwaited, RespondToApproval, RespondToServerRequest, StopSubAgent,
        StopCommand, CompactTurn, EnterStopping;
      match c
      case StartTurn(_, _, _, _, _, _) => ok := BeginHandOff(c, w);
      case Interrupt(_) => ok := Interrupt(c, w);
      case Control(reply) => ok := WriteAwaited(PlainControl, ValueWaiter(reply), reply, w);
      case RespondApproval(_, _, _) => ok := AnswerApproval(c, w);
      case RespondServerRequest(_, _, _) => ok := AnswerServerRequest(c, w);
      case StopTask(_) => ok := StopSubAgentTask(c, w);
      case StopBackgroundCommand(_) => ok := StopBackground(c, w);
      case Compact(_, _, _) => ok := RunCompaction(c, w);
      case Stop(reply) =>
        StartStopping(StopAsked, Some(reply), false, w);
        ok := true;
    }

    method OnQueue(command: Option<Command>, w: World) returns (ok: bool)
      modifies this
      ensures Result(Abs(), ok) == OnCommand(old(Abs()), command, w)
    {
      hide HandleCommand, EnterStopping;
      ok := true;
      match command
      case None =>
        commandsClosed := true;
        if !Stops() {
          StartStopping(HarnessDropped, None, false, w);
        }
      case Some(Stop(reply)) => StartStopping(StopAsked, Some(reply), false, w);
      case Some(c) =>
        Note(Received(c, SceneOf(Abs(), w)));
        if Stops() {
          Reply(c.reply, Failed(ChildStopped));
        } else {
          ok := Handle(c, w);
        }
    }

    // ---- The stop sequence -------------------------------------------------------------------

    method StartStopping(reason: StopReason, reply: Option<Token>, forIdleness: bool, w: World)
      modifies this
      ensures Abs() == EnterStopping(old(Abs()), reason, reply, forIdleness, w)
      ensures old(Stops()) || FirstStage(old(Abs()), phase, clock, w)
    {
      hide ChooseStage, AbandonSetup, Entered, FirstStage;
      StopChooses(Abs(), reason, reply, forIdleness, w);
      if Stops() {
        JoinStop(reply);
        return;
      }
      ghost var scene := SceneOf(Abs(), w);
      DropHandOff();
      BeginStop(reason, reply, forIdleness, scene);
      PickStage(w);
    }

    method BeginStop(reason: StopReason, reply: Option<Token>, forIdleness: bool, ghost scene: Scene)
      modifies this
      ensures Abs() == Entered(old(Abs()), reason, reply, forIdleness, scene) && phase.Halting?
    {
      Note(Trace.Stopping(reason, reply, scene));
      idleSince := None;
      if reply.Some? {
        Note(StopJoined(reply.value));
      }
      phase := Halting(reason, Listed(reply), Interrupting(0, 0, 0), forIdleness);
    }

    method JoinStop(reply: Option<Token>)
      requires phase.Halting?
      modifies this
      ensures var s := old(Abs());
              Abs() == Collect(s, reply).(phase := s.phase.(replies := s.phase.replies + Listed(reply)))
    {
      if reply.Some? {
        Note(StopJoined(reply.value));
      }
      phase := phase.(replies := phase.replies + Listed(reply));
    }

    method DropHandOff()
      modifies this
      ensures Abs() == AbandonSetup(old(Abs()))
    {
      if setup.Some? {
        var inHand := setup.value;
        setup := None;
        abandoned := abandoned + {inHand.id};
        Reply(inHand.reply, Failed(ChildStopping));
      }
    }

    method PickStage(w: World)
      requires phase.Halting?
      modifies this
      ensures Abs() == ChooseStage(old(Abs()), w)
    {
      hide Drain;
      match mapper.active
      case None => CloseStdin();
      case Some(turn) =>
        var interrupted := InterruptLive(turn, w);
        if !interrupted {
          CloseStdin();
        }
    }

    /** Ask the CLI to interrupt the live turn, under the stage's own deadline. */
    method InterruptLive(turn: TurnId, w: World) returns (ok: bool)
      requires phase.Halting?
      modifies this
      ensures ok == w.writeOk
      ensures var s := old(Abs());
              var sent := SendControl(s, StopInterrupt, None, w);
              Abs() == if !ok then sent
                       else sent.(waiters := sent.waiters[s.nextId := NobodyWaits], interruptSent := true,
                                  phase := s.phase.(stage := Interrupting(turn, s.nextId,
                                                                          s.clock + STOP_INTERRUPT_GRACE)))
    {
      ok := w.writeOk;
      var started := clock;
      var id := WriteControl(StopInterrupt, None, w);
      if ok {
        waiters := waiters[id := NobodyWaits];
        interruptSent := true;
        phase := phase.(stage := Interrupting(turn, id, started + STOP_INTERRUPT_GRACE));
      }
    }

    method CloseStdin()
      requires phase.Halting?
      modifies this`log, this`phase
      ensures Abs() == Drain(old(Abs()))
    {
      Note(StdinClosed(clock));
      phase := phase.(stage := Draining(clock + STOP_EXIT_GRACE));
    }

    method EndInterrupting()
      modifies this
      ensures Abs() == FinishInterrupting(old(Abs()))
    {
      if phase.Halting? && phase.stage.Interrupting? {
        CloseStdin();
      }
    }

    method OnStageDeadline()
      modifies this
      ensures Abs() == OnDeadline(old(Abs()))
    {
      hide OnSetupDeadline, End, FinishInterrupting;
      Note(StageDue(clock));
      match phase
      case Serving => OnHandOffDeadline();
      case Halting(_, _, Interrupting(_, _, _), _) => EndInterrupting();
      case Halting(_, _, Draining(_), _) =>
        Note(Killed(true, clock));
        EndLoop(Eof);
    }

    method EndLoop(otherwise: Steps.Ending)
      modifies this`life, this`phase
      ensures Abs() == End(old(Abs()), otherwise)
    {
      match phase
      case Serving => life := Life.Ending(otherwise);
      case Halting(_, replies, _, forIdleness) =>
        life := Life.Ending(Stopped(replies, forIdleness));
        phase := Serving;
    }

    method BreakChild()
      modifies this
      ensures Abs() == Break(old(Abs()))
    {
      hide End;
      failed := true;
      Note(Killed(false, clock));
      EndLoop(Broken);
    }

    // ---- Frames ------------------------------------------------------------------------------

    method TellWaiter(id: RequestId, payload: Payload, ghost w: World)
      requires id in waiters
      modifies this`waiters, this`log
      ensures var s := old(Abs());
              Abs() == Resolve(Emit(s.(waiters := s.waiters - {id}), Answered(id, payload, SceneOf(s, w))),
                               s.waiters[id], WaiterOutcome(s.waiters[id], payload))
    {
      hide WaiterOutcome;
      var waiter := waiters[id];
      waiters := waiters - {id};
      Note(Answered(id, payload, SceneOf(Abs(), w)));
      if !waiter.NobodyWaits? {
        Reply(waiter.reply, WaiterOutcome(waiter, payload));
      }
    }

    method OnResponse(id: RequestId, payload: Payload, w: World) returns (ok: bool)
      modifies this
      ensures Result(Abs(), ok) == OnControlResponse(old(Abs()), id, payload, w)
      ensures WaiterTold(old(Abs()), log, id, payload, w)
    {
      hide OnSetupResponse, WaiterOutcome, WaiterTold, Resolve;
      ResponseTells(Abs(), id, payload, w);
      ok := true;
      if setup.Some? && setup.value.id == id {
        ok := OnSetupAnswer(payload, w);
      } else if id in waiters {
        TellWaiter(id, payload, w);
      } else if id in abandoned {
        abandoned := abandoned - {id};
        Note(Answered(id, payload, SceneOf(Abs(), w)));
      } else {
        Note(Unmatched(id));
      }
    }

    method OnCancel(ask: AskId, found: Option<AskKind>)
      modifies this
      ensures Abs() == OnCancelRequest(old(Abs()), ask, found)
    {
      Note(AskWithdrawn(ask, found));
      match found
      case None => withdrawn := withdrawn + {ask};
      case Some(Approval) =>
      case Some(ServerRequest) => Append(AskCleared(ask));
    }

    method LeaveRoute(thread: ThreadId, asks: set<AskId>)
      modifies this`log
      ensures Abs() == CloseRoute(old(Abs()), thread, asks)
    {
      Note(RouteLeft(thread));
      Note(AsksForgotten(asks));
    }

    method DispatchOne(output: Output, w: World) returns (ok: bool)
      modifies this
      ensures Result(Abs(), ok) == Dispatch(old(Abs()), output, w)
    {
      hide OnControlResponse, OnCancelRequest;
      ok := true;
      match output
      case Event => Append(Published);
      case Reply =>
        if reaped {
          Note(OutputDropped);
        } else {
          Sleep(w.writing);
          Note(MapperWrote(w.writeOk));
          ok := w.writeOk;
        }
      case ControlResponse(id, payload) => ok := OnResponse(id, payload, w);
      case PendingAsk(kind, ask) => Append(AskRecorded(kind, ask));
      case CancelRequest(ask) => OnCancel(ask, w.pending);
      case RouteOpened(thread) => Append(RoutePublished(thread));
      case RouteReopened(thread) => Append(RoutePublished(thread));
      case RouteClosed(thread) =>
        LeaveRoute(thread, w.asks);
    }

    /** Every output of a frame in order; a write failure stops the frame. */
    method DispatchFrame(outputs: seq<(Output, World)>) returns (ok: bool)
      modifies this
      ensures Result(Abs(), ok) == DispatchAll(old(Abs()), outputs)
    {
      hide Dispatch;
      ok := true;
      var i := 0;
      while i < |outputs|
        invariant 0 <= i <= |outputs|
        invariant DispatchAll(Abs(), outputs[i..]) == DispatchAll(old(Abs()), outputs)
      {
        ok := DispatchOne(outputs[i].0, outputs[i].1);
        assert outputs[i..][0] == outputs[i] && outputs[i..][1..] == outputs[i + 1..];
        if !ok {
          return;
        }
        i := i + 1;
      }
      ok := true;
      assert outputs[i..] == [];
    }

    method OnStdoutLine(view: MapperView, outputs: seq<(Output, World)>)
      modifies this
      ensures Abs() == OnLine(old(Abs()), view, outputs)
    {
      hide DispatchAll, Break, FinishInterrupting;
      lastLine := clock;
      Note(LineRead(clock));
      mapper := view;
      var ok := DispatchFrame(outputs);
      if !ok {
        BreakChild();
        return;
      }
      Note(LineMapped(mapper.active, clock));
      if mapper.active.None? {
        EndInterrupting();
      }
    }

    method OnMapped(view: MapperView, outputs: seq<(Output, World)>)
      modifies this
      ensures Abs() == OrBreak(Mapped(old(Abs()), view, outputs))
    {
      hide DispatchAll, Break;
      mapper := view;
      var ok := DispatchFrame(outputs);
      if !ok {
        BreakChild();
      }
    }

    // ---- Idleness ----------------------------------------------------------------------------

    method TrackIdleness(asks: bool)
      modifies this
      ensures Abs() == TrackIdle(old(Abs()), asks)
    {
      if Stops() {
        return;
      }
      var busy := Keeps(asks);
      if busy.Some? {
        idleSince := None;
      } else if idleSince.None? {
        idleSince := Some(clock);
      }
      Note(LoopTop(clock, busy));
    }

    /** What keeps the child busy, the most specific reason first. */
    method Keeps(asks: bool) returns (busy: Option<Busy>)
      ensures busy == BusyWith(Abs(), asks)
    {
      if setup.Some? { return Some(TurnSetupBusy); }
      if asks { return Some(AsksBusy); }
      if mapper.routes { return Some(RoutesBusy); }
      if mapper.tasks { return Some(TasksBusy); }
      if waiters != map[] { return Some(ControlBusy); }
      if mapper.active.Some? { return Some(TurnBusy); }
      return None;
    }

    method Poll(t: Steps.Turn)
      modifies this
      ensures Abs() == Polled(old(Abs()), t)
    {
      hide TrackIdle;
      TrackIdleness(t.asks);
      if !mapper.awaiting {
        awaitingSince := None;
      } else if awaitingSince.None? {
        awaitingSince := Some(clock);
      }
      Sleep(t.w.waited);
    }

    /** The idle timer fired; with the thread's entry locked, `queued` is what the drain found. */
    method ReapChild(queued: Option<Command>, w: World) returns (ok: bool)
      requires idleTimeout.Some?
      modifies this
      ensures Result(Abs(), ok) == Reap(old(Abs()), queued, w)
    {
      hide OnCommand, EnterStopping;
      Note(RoutesCooled);
      if w.holdsEntry && queued.Some? {
        Note(ReapCancelled);
        ok := OnQueue(queued, w);
        return;
      }
      if w.holdsEntry {
        Note(EntryReleased(currentModel));
        reaped := true;
        Note(Reaped(clock, idleTimeout.value, HandOffs(Abs()), |waiters|));
        StartStopping(Idle, None, true, w);
      } else {
        StartStopping(StopAsked, None, false, w);
      }
      ok := true;
    }

    // ---- Exit --------------------------------------------------------------------------------

    method FailHandOff()
      modifies this
      ensures Abs() == FailSetup(old(Abs()))
    {
      if setup.Some? {
        var inHand := setup.value;
        setup := None;
        Reply(inHand.reply, Failed(ChildStopped));
      }
    }

    /** The open turns and routes, as the mapper closes them. */
    method CloseTurns(said: seq<Parting>)
      modifies this`log
      ensures Abs() == PartAll(old(Abs()), said)
    {
      hide Publish, CloseRoute;
      var i := 0;
      assert said[0..] == said;
      while i < |said|
        invariant i <= |said|
        invariant PartAll(Abs(), said[i..]) == PartAll(old(Abs()), said)
      {
        assert said[i..][1..] == said[i + 1..];
        match said[i] {
          case Said => Append(Published);
          case Closed(thread, asks) => LeaveRoute(thread, asks);
        }
        i := i + 1;
      }
    }

    /** The routes the mapper never closed. */
    method CloseRoutes(left: seq<(ThreadId, set<AskId>)>)
      modifies this`log
      ensures Abs() == PartAll(old(Abs()), Closings(left))
    {
      hide CloseRoute;
      var i := 0;
      assert left[0..] == left;
      while i < |left|
        invariant i <= |left|
        invariant PartAll(Abs(), Closings(left[i..])) == PartAll(old(Abs()), Closings(left))
      {
        assert Closings(left[i..])[1..] == Closings(left[i + 1..]);
        LeaveRoute(left[i].0, left[i].1);
        i := i + 1;
      }
    }

    method LeaveThread(bye: Farewell, asks: set<AskId>)
      modifies this
      ensures Abs() == EndThread(old(Abs()), bye, asks)
    {
      hide FailSetup, PartAll, Closings;
      var open := mapper.active.Some? || mapper.routes;
      var spared := life.Ending? && life.how.Stopped? && life.how.reaped;
      FailHandOff();
      if !spared {
        Note(AsksDropped(asks));
      }
      var said := if open then bye.said else [];
      PartedTwice(Abs(), said, Closings(bye.left));
      CloseTurns(said);
      CloseRoutes(bye.left);
      Note(RoutesCooled);
      if !spared {
        Note(LogClosed);
      }
    }

    /** Whoever still waits learns that the child stopped, in whatever order the map gives. */
    method DrainWaiters() returns (ghost told: multiset<Token>)
      modifies this`waiters
      ensures waiters == map[] && told == WaiterReplies(old(waiters))
    {
      hide WaiterReplies;
      told := multiset{};
      while waiters != map[]
        invariant told + WaiterReplies(waiters) == WaiterReplies(old(waiters))
        decreases |waiters|
      {
        var id :| id in waiters;
        Invariant.WaiterRemoved(waiters, id);
        told := told + ReplyOf(waiters[id]);
        waiters := waiters - {id};
      }
      NoWaiters();
    }

    method FailWaiters()
      modifies this
      ensures var s := old(Abs());
              Abs() == Emit(s.(waiters := map[]), WaitersFailed(WaiterReplies(s.waiters)))
    {
      hide WaiterReplies;
      ghost var told := DrainWaiters();
      Note(WaitersFailed(told));
    }

    method HandleExit(bye: Farewell, w: World)
      modifies this
      ensures Abs() == OnExit(old(Abs()), bye, w)
    {
      hide EndThread, WaiterReplies;
      ghost var s := Abs();
      var spared := life.Ending? && life.how.Stopped? && life.how.reaped;
      assert spared == WasReaped(s);
      LeaveThread(bye, w.asks);
      EndThreadWaiters(s, bye, w.asks);
      assert Abs() == EndThread(s, bye, w.asks);
      FailWaiters();
      ghost var failed := Abs();
      assert failed == Emit(EndThread(s, bye, w.asks).(waiters := map[]), WaitersFailed(WaiterReplies(s.waiters)));
      if !spared && w.holdsEntry {
        Note(EntryRemoved);
      }
      Note(ExitHandled);
    }

    method AnswerCollected(replies: seq<Token>)
      modifies this`log
      ensures Abs() == AnswerStops(old(Abs()), replies)
    {
      var i := 0;
      while i < |replies|
        invariant 0 <= i <= |replies|
        invariant AnswerStops(Abs(), replies[i..]) == AnswerStops(old(Abs()), replies)
      {
        Note(StopAnswered(replies[i]));
        assert replies[i..][0] == replies[i] && replies[i..][1..] == replies[i + 1..];
        i := i + 1;
      }
      assert replies[i..] == [];
    }

    method FinishTask(bye: Farewell, w: World)
      requires life.Ending?
      modifies this
      ensures Abs() == Finish(old(Abs()), bye, w)
    {
      hide OnExit, AnswerStops;
      var replies := if life.how.Stopped? then life.how.replies else [];
      HandleExit(bye, w);
      AnswerCollected(replies);
      life := Gone;
    }

    // ---- The loop ----------------------------------------------------------------------------

    method OneBody(t: Steps.Turn)
      requires t.input.IdleTimer? ==> idleTimeout.Some?
      modifies this
      ensures Abs() == Body(old(Abs()), t)
    {
      hide OnLine, End, Break, OnCommand, EnterStopping, OnDeadline, Mapped, Reap;
      match t.input
      case Line(view, outputs) => OnStdoutLine(view, outputs);
      case StdoutEof => EndLoop(Eof);
      case ReadError => BreakChild();
      case Queue(command) =>
        var ok := OnQueue(command, t.w);
        if !ok {
          BreakChild();
        }
      case ShutdownFlag => StartStopping(Shutdown, None, false, t.w);
      case StageTimer => OnStageDeadline();
      case NotificationTimer(view, outputs) =>
        awaitingSince := None;
        OnMapped(view, outputs);
      case IdleTimer(queued) =>
        var ok := ReapChild(queued, t.w);
        if !ok {
          BreakChild();
        }
      case _ =>
    }

    /** One arm fires. */
    method OneTurn(t: Steps.Turn)
      requires Enabled(Abs(), t)
      modifies this
      ensures Abs() == Step(old(Abs()), t)
    {
      hide Summary, Mapped, OrBreak, Finish, Body, Polled, FreshCommand, StageDeadline, NotificationDeadline;
      match t.input
      case EarlyLine(view, outputs) => OnMapped(view, outputs);
      case EarlyLinesDone => life := Looping;
      case ChildExited(bye) => FinishTask(bye, t.w);
      case _ =>
        Poll(t);
        OneBody(t);
    }

    /** The supervisor's whole life: every arm that fires, in the order they fire. */
    method RunTask(turns: seq<Steps.Turn>)
      requires Schedulable(Abs(), turns)
      modifies this
      ensures Abs() == Run(old(Abs()), turns)
    {
      hide Step, Enabled;
      var i := 0;
      while i < |turns|
        invariant 0 <= i <= |turns|
        invariant Schedulable(Abs(), turns[i..])
        invariant Run(Abs(), turns[i..]) == Run(old(Abs()), turns)
      {
        assert turns[i..][0] == turns[i] && turns[i..][1..] == turns[i + 1..];
        OneTurn(turns[i]);
        i := i + 1;
      }
      assert turns[i..] == [];
    }
  }

  /** Each arm of the schedule can fire when its turn comes. */
  ghost predicate Schedulable(s: State, turns: seq<Steps.Turn>)
    decreases |turns|
  {
    turns == [] || (Enabled(s, turns[0]) && Schedulable(Step(s, turns[0]), turns[1..]))
  }

  /** A waiter whose request is answered is told what the CLI said, and nothing else happens. */
  predicate WaiterTold(s: State, log: seq<Obs>, id: RequestId, payload: Payload, w: World) {
    id in s.waiters && !s.waiters[id].NobodyWaits? && !(s.setup.Some? && s.setup.value.id == id) ==>
      log == s.log + [Answered(id, payload, SceneOf(s, w)),
                      Settled(s.waiters[id].reply,
                              match payload
                              case Success(_, _) => if s.waiters[id].ValueWaiter? then Value(payload) else Done
                              case Error(message, _) => Failed(Refused(message))
                              case Odd => Failed(OddResponse))]
  }

  lemma ResponseTells(s: State, id: RequestId, payload: Payload, w: World)
    ensures WaiterTold(s, OnControlResponse(s, id, payload, w).state.log, id, payload, w)
  {
    hide OnSetupResponse;
  }

  /** A live turn is interrupted first; stdin closes at once only with none, or if that fails. */
  predicate FirstStage(s: State, phase: Phase, clock: Instant, w: World) {
    && phase.Halting?
    && phase.stage
       == if s.mapper.active.Some? && w.writeOk
          then Interrupting(s.mapper.active.value, s.nextId, s.clock + STOP_INTERRUPT_GRACE)
          else Draining(clock + STOP_EXIT_GRACE)
  }

  lemma StopChooses(s: State, reason: StopReason, reply: Option<Token>, forIdleness: bool, w: World)
    ensures var after := EnterStopping(s, reason, reply, forIdleness, w);
            Halted(s) || FirstStage(s, after.phase, after.clock, w)
  {
    AbandonedFields(s);
    hide AbandonSetup;
  }

  lemma AbandonedFields(s: State)
    ensures var left := AbandonSetup(s);
            left.mapper == s.mapper && left.clock == s.clock && left.nextId == s.nextId
  {
  }

  lemma NoWaiters()
    ensures WaiterReplies(map[]) == multiset{}
  {
  }

  lemma {:induction false} PartedTwice(s: State, said: seq<Parting>, left: seq<Parting>)
    ensures PartAll(s, said + left) == PartAll(PartAll(s, said), left)
    decreases |said|
  {
    hide Part;
    if said == [] {
      assert said + left == left;
    } else {
      assert (said + left)[1..] == said[1..] + left;
      PartedTwice(Part(s, said[0]), said[1..], left);
    }
  }

  lemma EndThreadWaiters(s: State, bye: Farewell, asks: set<AskId>)
    ensures EndThread(s, bye, asks).waiters == s.waiters && EndThread(s, bye, asks).life == s.life
  {
    hide PartAll, Partings, FailSetup;
    var freed := FailSetup(s);
    assert freed.waiters == s.waiters && freed.life == s.life by {
      FailedWaiters(s);
    }
    PartedWaiters(if WasReaped(s) then freed else Emit(freed, AsksDropped(asks)), Partings(s, bye));
  }

  lemma FailedWaiters(s: State)
    ensures FailSetup(s).waiters == s.waiters && FailSetup(s).life == s.life
  {
  }

  lemma {:induction false} PartedWaiters(s: State, partings: seq<Parting>)
    ensures PartAll(s, partings).waiters == s.waiters && PartAll(s, partings).life == s.life
    decreases |partings|
  {
    if partings != [] {
      PartedWaiters(Part(s, partings[0]), partings[1..]);
    }
  }
}
