/** The specification of the supervisor: each operation as a function from the state it starts in
    (and what the environment decides) to the state it leaves. `Supervisor` is proved against it. */
module Steps {
  import opened Protocol
  import opened Trace

  // ---- State ---------------------------------------------------------------------------------

  /** Who waits for a control response. */
  datatype Waiter =
    | UnitWaiter(reply: Token)
    | ValueWaiter(reply: Token)
    | TaskWaiter(reply: Token)
    | NobodyWaits

  datatype TurnSetup = TurnSetup(
    line: string,
    turn: TurnId,
    model: ModelRef,
    settings: TurnSettings,
    notice: Option<string>,
    reply: Token,
    stage: SetupStage,
    id: RequestId,
    budget: Instant,
    sent: Instant,
    deadline: Instant,
    modelChange: Option<string>,
    effortChange: Option<string>)

  datatype StopStage =
    | Interrupting(turn: TurnId, id: RequestId, deadline: Instant)
    | Draining(deadline: Instant)

  datatype Phase =
    | Serving
    | Halting(reason: StopReason, replies: seq<Token>, stage: StopStage, reaped: bool)

  datatype Ending = Eof | Broken | Stopped(replies: seq<Token>, reaped: bool)

  /** Where the supervisor's task is: mapping the handshake's early lines, in its loop, past it,
      or done with exit handling. */
  datatype Life = Early | Looping | Ending(how: Ending) | Gone

  datatype State = State(
    life: Life,
    phase: Phase,
    setup: Option<TurnSetup>,
    waiters: map<RequestId, Waiter>,
    abandoned: set<RequestId>,
    withdrawn: set<AskId>,
    mode: string,
    model: ModelRef,
    effort: Option<string>,
    interruptSent: bool,
    failed: bool,
    idleTimeout: Option<nat>,
    idleSince: Option<Instant>,
    lastLine: Instant,
    awaitingSince: Option<Instant>,
    reaped: bool,
    commandsClosed: bool,
    clock: Instant,
    nextId: RequestId,
    mapper: MapperView,
    log: seq<Obs>)

  /** An operation's result; not `ok` is a stdin write failure, which breaks the child. */
  datatype Result = Result(state: State, ok: bool)

  function Spawned(model: ModelRef, idleTimeout: Option<nat>, inherited: set<RequestId>,
                   firstId: RequestId, now: Instant, mapper: MapperView): State
  {
    Emit(
      State(Early, Serving, None, map[], inherited, {}, "default", model, model.effort, false, false,
            idleTimeout, None, now, None, false, false, now, firstId, mapper, []),
      Inherited(inherited, firstId, model))
  }

  // ---- Observing, waiting, writing -----------------------------------------------------------

  function Emit(s: State, o: Obs): State {
    s.(log := s.log + [o])
  }

  /** Append an event, unless the child was reaped. */
  function Publish(s: State, o: Obs): State {
    Emit(s, if s.reaped then OutputDropped else o)
  }

  function Settle(s: State, reply: Token, outcome: Outcome): State {
    Emit(s, Settled(reply, outcome))
  }

  function Passed(s: State, time: nat): State {
    s.(clock := s.clock + time)
  }

  function SceneOf(s: State, w: World): Scene {
    Scene(s.mapper.active, HandOffs(s), s.clock, w)
  }

  /** Write a control request under a fresh id; the id is `s.nextId`. */
  function SendControl(s: State, what: ControlKind, caller: Option<Token>, w: World): State {
    Emit(Passed(s, w.writing).(nextId := s.nextId + 1),
         ControlSent(s.nextId, what, caller, s.clock + w.writing, w.writeOk))
  }

  /** A request whose answer `waiter` awaits, or the write failure its caller learns. */
  function SendAwaited(s: State, what: ControlKind, waiter: Waiter, reply: Token, w: World): Result {
    var sent := SendControl(s, what, Some(reply), w);
    if w.writeOk then
      Result(sent.(waiters := sent.waiters[s.nextId := waiter]), true)
    else
      Result(Settle(sent, reply, Failed(WriteFailed)), false)
  }

  predicate Halted(s: State) {
    s.phase.Halting?
  }

  // ---- The hand-off of a turn ----------------------------------------------------------------

  function HandOffs(s: State): nat {
    if s.setup.Some? then 1 else 0
  }

  function BeginTurnSetup(s: State, c: Command, w: World): Result
    requires c.StartTurn?
  {
    if w.gaveUp then
      Result(Settle(s, c.reply, Dropped), true)
    else if s.mapper.active.Some? || s.setup.Some? then
      Result(Settle(s, c.reply, Failed(ThreadBusy)), true)
    else
      var setup := TurnSetup(c.line, c.turn, c.model, c.settings, c.notice, c.reply, Mode, 0,
                             s.clock + TURN_SETTINGS_BUDGET, s.clock, s.clock, None, None);
      SendSetup(Emit(s, HandOffBegan(c.reply, s.clock)), setup, Mode, w)
  }

  function WishOf(setup: TurnSetup, stage: SetupStage): Wish {
    match stage
    case Mode => SetMode(setup.settings.mode)
    case Model => SetModel(setup.modelChange)
    case Effort => SetEffort(setup.effortChange)
    case ReadBack => ReadSettings
  }

  /** Write the request of `stage` and keep the hand-off in flight until its answer or deadline. */
  function SendSetup(s: State, setup: TurnSetup, stage: SetupStage, w: World): Result {
    var id := s.nextId;
    var now := s.clock + w.writing;
    var deadline := Min(now + CONTROL_TIMEOUT, setup.budget);
    var sent := Emit(Passed(s, w.writing).(nextId := id + 1),
                     SettingsSent(setup.reply, stage, WishOf(setup, stage), id, now, deadline, setup.budget,
                                  w.writeOk));
    if w.writeOk then
      Result(sent.(setup := Some(setup.(stage := stage, id := id, sent := now, deadline := deadline))), true)
    else
      Result(Settle(sent, setup.reply, Failed(WriteFailed)), false)
  }

  function RefusalOf(payload: Payload): Failure
    requires !payload.Success?
  {
    if payload.Error? then Failure.Refused(payload.message) else OddResponse
  }

  /** The failure a hand-off reports when the CLI refused `stage`. */
  function StageRefused(stage: SetupStage, payload: Payload): Failure
    requires !payload.Success?
  {
    if stage == Model && payload.Error? && payload.code == Some("catalog_unknown") then
      UnknownModel(payload.message)
    else
      RefusalOf(payload)
  }

  function OnSetupResponse(s: State, payload: Payload, w: World): Result
    requires s.setup.Some?
  {
    var setup := s.setup.value;
    var taken := Emit(s.(setup := None), Answered(setup.id, payload, SceneOf(s, w)));
    if !payload.Success? then
      Result(Settle(taken, setup.reply, Failed(StageRefused(setup.stage, payload))), true)
    else
      match setup.stage
      case Mode => AfterMode(taken, setup, w)
      case Model =>
        SendSetup(taken, setup, if setup.effortChange.Some? then Effort else ReadBack, w)
      case Effort => SendSetup(taken, setup, ReadBack, w)
      case ReadBack => AfterReadBack(taken, setup, payload, w)
  }

  /** What of the model and the effort differs from what the CLI holds. */
  function Decide(s: State, setup: TurnSetup): TurnSetup {
    var settings := setup.settings;
    var modelChange :=
      if settings.model.Some? && settings.model.value != s.model.model then settings.model else None;
    setup.(modelChange := modelChange,
           effortChange := if settings.effort.Some? && (modelChange.Some? || settings.effort != s.effort)
                           then settings.effort else None)
  }

  /** The mode is in: decide what else has to be sent. */
  function AfterMode(s: State, setup: TurnSetup, w: World): Result {
    var now, decided := s.(mode := setup.settings.mode), Decide(s, setup);
    if decided.modelChange.Some? then SendSetup(now, decided, Model, w)
    else if decided.effortChange.Some? then SendSetup(now, decided, Effort, w)
    else FinishTurnSetup(now, decided, w)
  }

  function WantedModel(s: State, setup: TurnSetup): string {
    if setup.settings.model.Some? then setup.settings.model.value else s.model.model
  }

  predicate ModelApplied(s: State, setup: TurnSetup, payload: Payload)
    requires payload.Success?
  {
    && payload.appliedModel.Some?
    && (payload.appliedModel.value == WantedModel(s, setup)
        || setup.settings.resolvedModel == payload.appliedModel)
  }

  /** What the CLI holds after a read-back that named an acceptable model. */
  function Adopt(s: State, setup: TurnSetup, payload: Payload, w: World): State
    requires payload.Success?
  {
    var model := if setup.modelChange.Some? then setup.model else s.model;
    var held := s.(model := model.(effort := payload.appliedEffort), effort := payload.appliedEffort);
    if w.holdsEntry then Emit(held, EntrySynced(held.model)) else held
  }

  function AfterReadBack(s: State, setup: TurnSetup, payload: Payload, w: World): Result
    requires payload.Success?
  {
    var wanted := WantedModel(s, setup);
    if !ModelApplied(s, setup, payload) then
      Result(Settle(s, setup.reply, Failed(WrongModel(payload.appliedModel, wanted))), true)
    else
      var held := Adopt(s, setup, payload, w);
      if setup.effortChange.Some? && payload.appliedEffort != setup.effortChange then
        Result(Settle(held, setup.reply, Failed(EffortNotTaken(setup.effortChange.value, wanted))), true)
      else
        FinishTurnSetup(held, setup, w)
  }

  /** Start a turn in the mapper and the log, forgetting the withdrawals of earlier turns. */
  function BeginTurn(s: State, turn: TurnId, notice: Option<string>): State {
    var begun := Publish(s.(withdrawn := {}, mapper := s.mapper.(active := Some(turn))), TurnStarted(turn));
    if notice.Some? then Publish(begun, Noticed(turn, notice.value)) else begun
  }

  function Written(w: World): Outcome {
    if w.writeOk then Done else Failed(WriteFailed)
  }

  /** The settings are applied: `TurnStarted`, then the user message. */
  function FinishTurnSetup(s: State, setup: TurnSetup, w: World): Result {
    if w.gaveUp then
      Result(Settle(s, setup.reply, Dropped), true)
    else if s.mapper.active.Some? then
      Result(Settle(s, setup.reply, Failed(ThreadBusy)), true)
    else
      var begun := Passed(BeginTurn(s, setup.turn, setup.notice), w.writing);
      var wrote := Emit(begun,
                        UserLine(setup.reply, setup.turn, setup.line, setup.settings, s.mode, s.model,
                                 s.effort, s.mapper.active, HandOffs(s), w.writeOk));
      Result(Settle(wrote, setup.reply, Written(w)), w.writeOk)
  }

  /** The in-flight request's deadline passed; its late answer is expected. */
  function OnSetupDeadline(s: State): State {
    if s.setup.None? then s
    else
      var setup := s.setup.value;
      var waited := if setup.deadline >= setup.sent then setup.deadline - setup.sent else 0;
      Settle(s.(setup := None, abandoned := s.abandoned + {setup.id}), setup.reply,
             Failed(TimedOut(setup.stage, waited)))
  }

  // ---- Other commands ------------------------------------------------------------------------

  function RespondToApproval(s: State, c: Command, w: World): Result
    requires c.RespondApproval?
  {
    if c.ask in s.withdrawn then
      Result(Settle(Emit(s.(withdrawn := s.withdrawn - {c.ask}), AskRefused(c.ask)), c.reply,
                    Failed(Withdrawn)), true)
    else if w.gaveUp then
      Result(Settle(Emit(s, AskReinserted(Approval, c.ask)), c.reply, Dropped), true)
    else if c.decision == ExecPolicyAmendment then
      Result(Settle(Emit(s, AskReinserted(Approval, c.ask)), c.reply, Failed(UnsupportedDecision)), true)
    else
      var told := s.(interruptSent := s.interruptSent || c.decision == Cancel);
      var wrote := Emit(Passed(told, w.writing), AskAnswered(Approval, c.ask, Some(c.decision), w.writeOk));
      Result(Settle(wrote, c.reply, Written(w)), w.writeOk)
  }

  function RespondToServerRequest(s: State, c: Command, w: World): Result
    requires c.RespondServerRequest?
  {
    if c.ask in s.withdrawn then
      var refused := Emit(s.(withdrawn := s.withdrawn - {c.ask}), AskRefused(c.ask));
      Result(Settle(Publish(refused, AskCleared(c.ask)), c.reply, Failed(Withdrawn)), true)
    else if w.gaveUp then
      Result(Settle(Emit(s, AskReinserted(ServerRequest, c.ask)), c.reply, Dropped), true)
    else if !c.fits then
      Result(Settle(Emit(s, AskReinserted(ServerRequest, c.ask)), c.reply, Failed(UnfitAnswer)), true)
    else
      var wrote := Emit(Passed(s, w.writing), AskAnswered(ServerRequest, c.ask, None, w.writeOk));
      if w.writeOk then
        Result(Settle(Publish(wrote, AskCleared(c.ask)), c.reply, Done), true)
      else
        Result(Settle(wrote, c.reply, Failed(WriteFailed)), false)
  }

  function StopSubAgent(s: State, c: Command, w: World): Result
    requires c.StopTask?
  {
    match w.task
    case NotYetStarted => Result(Settle(s, c.reply, Failed(NotStarted)), true)
    case Ended => Result(Settle(s, c.reply, Done), true)
    case NoRoute => Result(Settle(s, c.reply, Failed(NotARoute)), true)
    case Running => SendAwaited(s, TaskStop, TaskWaiter(c.reply), c.reply, w)
  }

  function StopCommand(s: State, c: Command, w: World): Result
    requires c.StopBackgroundCommand?
  {
    if !w.command then
      Result(Settle(s, c.reply, Failed(NoBackgroundCommand)), true)
    else
      SendAwaited(s, CommandStop, UnitWaiter(c.reply), c.reply, w)
  }

  function CompactTurn(s: State, c: Command, w: World): Result
    requires c.Compact?
  {
    if w.gaveUp then
      Result(Settle(s, c.reply, Dropped), true)
    else if s.mapper.active.Some? || s.setup.Some? then
      Result(Settle(s, c.reply, Failed(ThreadBusy)), true)
    else
      var begun := Passed(BeginTurn(s, c.turn, c.notice), w.writing);
      var wrote := Emit(begun, CompactLine(c.reply, c.turn, s.mapper.active, HandOffs(s), w.writeOk));
      Result(Settle(wrote, c.reply, Written(w)), w.writeOk)
  }

  function InterruptTurn(s: State, c: Command, w: World): Result
    requires c.Interrupt?
  {
    var r := SendAwaited(s, UserInterrupt, UnitWaiter(c.reply), c.reply, w);
    if r.ok then r.(state := r.state.(interruptSent := true)) else r
  }

  /** A command served while the supervisor is serving. */
  function HandleCommand(s: State, c: Command, w: World): Result {
    match c
    case StartTurn(_, _, _, _, _, _) => BeginTurnSetup(s, c, w)
    case Interrupt(_) => InterruptTurn(s, c, w)
    case Control(reply) => SendAwaited(s, PlainControl, ValueWaiter(reply), reply, w)
    case RespondApproval(_, _, _) => RespondToApproval(s, c, w)
    case RespondServerRequest(_, _, _) => RespondToServerRequest(s, c, w)
    case StopTask(_) => StopSubAgent(s, c, w)
    case StopBackgroundCommand(_) => StopCommand(s, c, w)
    case Compact(_, _, _) => CompactTurn(s, c, w)
    case Stop(reply) => Result(EnterStopping(s, StopAsked, Some(reply), false, w), true)
  }

  /** One command from the queue, or the queue's end. */
  function OnCommand(s: State, command: Option<Command>, w: World): Result {
    match command
    case None =>
      var closed := s.(commandsClosed := true);
      if Halted(s) then Result(closed, true)
      else Result(EnterStopping(closed, HarnessDropped, None, false, w), true)
    case Some(Stop(reply)) => Result(EnterStopping(s, StopAsked, Some(reply), false, w), true)
    case Some(c) =>
      var received := Emit(s, Received(c, SceneOf(s, w)));
      if Halted(s) then Result(Settle(received, c.reply, Failed(ChildStopped)), true)
      else HandleCommand(received, c, w)
  }

  // ---- Frames --------------------------------------------------------------------------------

  function WaiterOutcome(waiter: Waiter, payload: Payload): Outcome {
    if !payload.Success? then Failed(RefusalOf(payload))
    else if waiter.ValueWaiter? then Value(payload)
    else Done
  }

  function Resolve(s: State, waiter: Waiter, outcome: Outcome): State {
    if waiter.NobodyWaits? then s else Settle(s, waiter.reply, outcome)
  }

  function OnControlResponse(s: State, id: RequestId, payload: Payload, w: World): Result {
    if s.setup.Some? && s.setup.value.id == id then
      OnSetupResponse(s, payload, w)
    else if id in s.waiters then
      var waiter := s.waiters[id];
      Result(Resolve(Emit(s.(waiters := s.waiters - {id}), Answered(id, payload, SceneOf(s, w))), waiter,
                     WaiterOutcome(waiter, payload)), true)
    else if id in s.abandoned then
      Result(Emit(s.(abandoned := s.abandoned - {id}), Answered(id, payload, SceneOf(s, w))), true)
    else
      Result(Emit(s, Unmatched(id)), true)
  }

  function OnCancelRequest(s: State, ask: AskId, found: Option<AskKind>): State {
    var noted := Emit(s, AskWithdrawn(ask, found));
    match found
    case None => noted.(withdrawn := s.withdrawn + {ask})
    case Some(Approval) => noted
    case Some(ServerRequest) => Publish(noted, AskCleared(ask))
  }

  /** The supervisor leaves a route's log, and the route's asks go. */
  function CloseRoute(s: State, thread: ThreadId, asks: set<AskId>): State {
    Emit(Emit(s, RouteLeft(thread)), AsksForgotten(asks))
  }

  function Dispatch(s: State, output: Output, w: World): Result {
    match output
    case Event => Result(Publish(s, Published), true)
    case Reply =>
      if s.reaped then Result(Emit(s, OutputDropped), true)
      else Result(Emit(Passed(s, w.writing), MapperWrote(w.writeOk)), w.writeOk)
    case ControlResponse(id, payload) => OnControlResponse(s, id, payload, w)
    case PendingAsk(kind, ask) => Result(Publish(s, AskRecorded(kind, ask)), true)
    case CancelRequest(ask) => Result(OnCancelRequest(s, ask, w.pending), true)
    case RouteOpened(thread) => Result(Publish(s, RoutePublished(thread)), true)
    case RouteReopened(thread) => Result(Publish(s, RoutePublished(thread)), true)
    case RouteClosed(thread) => Result(CloseRoute(s, thread, w.asks), true)
  }

  /** Every output of a frame in order, up to the first write failure. */
  function DispatchAll(s: State, outputs: seq<(Output, World)>): Result
    decreases |outputs|
  {
    if outputs == [] then Result(s, true)
    else
      var first := Dispatch(s, outputs[0].0, outputs[0].1);
      if first.ok then DispatchAll(first.state, outputs[1..]) else first
  }

  // ---- Idleness and the reap -----------------------------------------------------------------

  function BusyWith(s: State, asks: bool): Option<Busy> {
    if s.setup.Some? then Some(TurnSetupBusy)
    else if asks then Some(AsksBusy)
    else if s.mapper.routes then Some(RoutesBusy)
    else if s.mapper.tasks then Some(TasksBusy)
    else if s.waiters != map[] then Some(ControlBusy)
    else if s.mapper.active.Some? then Some(TurnBusy)
    else None
  }

  /** The top of the loop: start or stop the idle clock. */
  function TrackIdle(s: State, asks: bool): State {
    if Halted(s) then s
    else
      var busy := BusyWith(s, asks);
      var since := if busy.Some? then None else if s.idleSince.Some? then s.idleSince else Some(s.clock);
      Emit(s.(idleSince := since), LoopTop(s.clock, busy))
  }

  function NoteNotification(s: State): State {
    s.(awaitingSince := if !s.mapper.awaiting then None
                        else if s.awaitingSince.Some? then s.awaitingSince
                        else Some(s.clock))
  }

  function IdleDeadline(s: State): Option<Instant> {
    if Halted(s) || s.idleSince.None? || s.idleTimeout.None? then None
    else Some(Max(s.idleSince.value, s.lastLine) + s.idleTimeout.value)
  }

  function NotificationDeadline(s: State): Option<Instant> {
    if s.awaitingSince.None? then None else Some(s.awaitingSince.value + NOTIFICATION_GRACE)
  }

  /** The idle timer fired. With the entry's lock held: `queued` is what the drain found. */
  function Reap(s: State, queued: Option<Command>, w: World): Result
    requires s.idleTimeout.Some?
  {
    var cooled := Emit(s, RoutesCooled);
    if !w.holdsEntry then
      Result(EnterStopping(cooled, StopAsked, None, false, w), true)
    else if queued.Some? then
      OnCommand(Emit(cooled, ReapCancelled), queued, w)
    else
      var released := Emit(cooled, EntryReleased(s.model));
      var reaped := Emit(released.(reaped := true),
                         Reaped(s.clock, s.idleTimeout.value, HandOffs(s), |s.waiters|));
      Result(EnterStopping(reaped, Idle, None, true, w), true)
  }

  // ---- The stop sequence ---------------------------------------------------------------------

  function Listed(reply: Option<Token>): seq<Token> {
    if reply.Some? then [reply.value] else []
  }

  /** The stop sequence takes a `Stop`'s reply channel. */
  function Collect(s: State, reply: Option<Token>): State {
    if reply.Some? then Emit(s, StopJoined(reply.value)) else s
  }

  function EnterStopping(s: State, reason: StopReason, reply: Option<Token>, reaped: bool, w: World): State {
    if Halted(s) then
      Collect(s, reply).(phase := s.phase.(replies := s.phase.replies + Listed(reply)))
    else
      ChooseStage(Entered(AbandonSetup(s), reason, reply, reaped, SceneOf(s, w)), w)
  }

  /** The stop sequence is entered; its first stage is still to be chosen, stdin is open. */
  function Entered(s: State, reason: StopReason, reply: Option<Token>, reaped: bool, scene: Scene): State {
    Collect(Emit(s, Trace.Stopping(reason, reply, scene)), reply).(
      idleSince := None, phase := Halting(reason, Listed(reply), Interrupting(0, 0, 0), reaped))
  }

  /** The hand-off in flight, if any, fails; the CLI may still answer its request. */
  function AbandonSetup(s: State): State {
    if s.setup.None? then s
    else
      var setup := s.setup.value;
      Settle(s.(setup := None, abandoned := s.abandoned + {setup.id}), setup.reply, Failed(ChildStopping))
  }

  /** Interrupt the live turn, else close stdin. */
  function ChooseStage(s: State, w: World): State
    requires s.phase.Halting?
  {
    match s.mapper.active
    case None => Drain(s)
    case Some(turn) =>
      var sent := SendControl(s, StopInterrupt, None, w);
      if w.writeOk then
        sent.(waiters := sent.waiters[s.nextId := NobodyWaits], interruptSent := true,
              phase := s.phase.(stage := Interrupting(turn, s.nextId, s.clock + STOP_INTERRUPT_GRACE)))
      else
        Drain(sent)
  }

  /** Close stdin: an idle CLI exits at EOF. */
  function Drain(s: State): State
    requires s.phase.Halting?
  {
    Emit(s, StdinClosed(s.clock)).(phase := s.phase.(stage := Draining(s.clock + STOP_EXIT_GRACE)))
  }

  function FinishInterrupting(s: State): State {
    if s.phase.Halting? && s.phase.stage.Interrupting? then Drain(s) else s
  }

  /** After every line: an interrupted turn that closed moves the stop sequence on. */
  function AfterLine(s: State): State {
    var mapped := Emit(s, LineMapped(s.mapper.active, s.clock));
    if s.mapper.active.None? then FinishInterrupting(mapped) else mapped
  }

  function StageDeadline(s: State): Option<Instant> {
    match s.phase
    case Serving => if s.setup.Some? then Some(s.setup.value.deadline) else None
    case Halting(_, _, stage, _) => Some(stage.deadline)
  }

  function OnDeadline(s: State): State {
    var due := Emit(s, StageDue(s.clock));
    match s.phase
    case Serving => OnSetupDeadline(due)
    case Halting(_, _, Interrupting(_, _, _), _) => FinishInterrupting(due)
    case Halting(_, _, Draining(_), _) => End(Emit(due, Killed(true, s.clock)), Eof)
  }

  /** The loop ends; a stop sequence still answers its callers, whatever ended the child. */
  function End(s: State, otherwise: Ending): State {
    match s.phase
    case Serving => s.(life := Ending(otherwise))
    case Halting(_, replies, _, reaped) => s.(life := Ending(Stopped(replies, reaped)), phase := Serving)
  }

  /** A read or write failed: the child is killed. */
  function Break(s: State): State {
    End(Emit(s.(failed := true), Killed(false, s.clock)), Broken)
  }

  function OrBreak(r: Result): State {
    if r.ok then r.state else Break(r.state)
  }

  // ---- Exit ----------------------------------------------------------------------------------

  function ReplyOf(waiter: Waiter): multiset<Token> {
    if waiter.NobodyWaits? then multiset{} else multiset{waiter.reply}
  }

  /** The reply channels a waiter map holds. */
  ghost function WaiterReplies(waiters: map<RequestId, Waiter>): multiset<Token>
    decreases |waiters|
  {
    if waiters == map[] then multiset{}
    else
      var id :| id in waiters;
      ReplyOf(waiters[id]) + WaiterReplies(waiters - {id})
  }

  function FailSetup(s: State): State {
    if s.setup.None? then s
    else Settle(s.(setup := None), s.setup.value.reply, Failed(ChildStopped))
  }

  /** What the mapper still has to say when its child is gone: an event, or a route closed with its
      asks. */
  datatype Parting = Said | Closed(thread: ThreadId, asks: set<AskId>)

  /** How the mapper closes the open turns, and the routes it left open, with their asks. */
  datatype Farewell = Farewell(said: seq<Parting>, left: seq<(ThreadId, set<AskId>)>)

  function Part(s: State, parting: Parting): State {
    match parting
    case Said => Publish(s, Published)
    case Closed(thread, asks) => CloseRoute(s, thread, asks)
  }

  function PartAll(s: State, partings: seq<Parting>): State
    decreases |partings|
  {
    if partings == [] then s else PartAll(Part(s, partings[0]), partings[1..])
  }

  function Closings(left: seq<(ThreadId, set<AskId>)>): seq<Parting> {
    seq(|left|, i requires 0 <= i < |left| => Closed(left[i].0, left[i].1))
  }

  /** The mapper is asked only if it has an open turn or route; what routes it leaves are closed then. */
  function Partings(s: State, bye: Farewell): seq<Parting> {
    (if s.mapper.active.Some? || s.mapper.routes then bye.said else []) + Closings(bye.left)
  }

  predicate WasReaped(s: State) {
    s.life.Ending? && s.life.how.Stopped? && s.life.how.reaped
  }

  /** The hand-off, the thread's asks, its turns, its routes and its log end with the child; a
      reaped child's thread keeps its asks and its log. */
  function EndThread(s: State, bye: Farewell, asks: set<AskId>): State {
    var freed := FailSetup(s);
    var dropped := if WasReaped(s) then freed else Emit(freed, AsksDropped(asks));
    var cooled := Emit(PartAll(dropped, Partings(s, bye)), RoutesCooled);
    if WasReaped(s) then cooled else Emit(cooled, LogClosed)
  }

  /** Child-exit handling. */
  ghost function OnExit(s: State, bye: Farewell, w: World): State {
    var failed := Emit(EndThread(s, bye, w.asks).(waiters := map[]), WaitersFailed(WaiterReplies(s.waiters)));
    Emit(if !WasReaped(s) && w.holdsEntry then Emit(failed, EntryRemoved) else failed, ExitHandled)
  }

  function AnswerStops(s: State, replies: seq<Token>): State
    decreases |replies|
  {
    if replies == [] then s else AnswerStops(Emit(s, StopAnswered(replies[0])), replies[1..])
  }

  /** The supervisor's end: exit handling, then every collected `Stop` is answered. */
  ghost function Finish(s: State, bye: Farewell, w: World): State
    requires s.life.Ending?
  {
    var exited := OnExit(s, bye, w);
    AnswerStops(exited, if s.life.how.Stopped? then s.life.how.replies else []).(life := Gone)
  }

  // ---- One step of the supervisor ------------------------------------------------------------------

  /** Which arm of the loop fired, and with what. */
  datatype Input =
    | EarlyLine(view: MapperView, outputs: seq<(Output, World)>)
    | EarlyLinesDone
    | Line(view: MapperView, outputs: seq<(Output, World)>)
    | StdoutEof
    | ReadError
    | Queue(command: Option<Command>)
    | ShutdownFlag
    | StageTimer
    | NotificationTimer(view: MapperView, outputs: seq<(Output, World)>)
    | IdleTimer(queued: Option<Command>)
    | ChildExited(bye: Farewell)

  /** One turn of the loop: whether the pending map held asks at its top, and what came in. */
  datatype Turn = Turn(asks: bool, w: World, input: Input)

  /** The loop's arms are polled in this state: idle clock tracked, some time waited. */
  function Polled(s: State, t: Turn): State {
    Passed(NoteNotification(TrackIdle(s, t.asks)), t.w.waited)
  }

  predicate Due(deadline: Option<Instant>, now: Instant) {
    deadline.Some? && deadline.value <= now
  }

  /** A command carries a reply channel no earlier command carried. */
  predicate FreshCommand(s: State, command: Option<Command>) {
    command.Some? ==>
      && FromFacade(command.value)
      && var m := Summary(s.log);
         (if command.value.Stop? then m.stops else m.replies).received[command.value.reply] == 0
  }

  predicate Enabled(s: State, t: Turn) {
    match t.input
    case EarlyLine(_, _) => s.life == Early
    case EarlyLinesDone => s.life == Early
    case ChildExited(_) => s.life.Ending?
    case _ =>
      && s.life == Looping
      && var p := Polled(s, t);
         match t.input
         case Queue(command) => !p.commandsClosed && FreshCommand(s, command)
         case ShutdownFlag => !Halted(p)
         case StageTimer => Due(StageDeadline(p), p.clock)
         case NotificationTimer(_, _) => Due(NotificationDeadline(p), p.clock)
         case IdleTimer(queued) => Due(IdleDeadline(p), p.clock) && FreshCommand(s, queued)
         case _ => true
  }

  function Mapped(s: State, view: MapperView, outputs: seq<(Output, World)>): Result {
    DispatchAll(s.(mapper := view), outputs)
  }

  function OnLine(s: State, view: MapperView, outputs: seq<(Output, World)>): State {
    var read := Emit(s.(lastLine := s.clock), LineRead(s.clock));
    var r := Mapped(read, view, outputs);
    if r.ok then AfterLine(r.state) else Break(r.state)
  }

  function OnNotificationTimer(s: State, view: MapperView, outputs: seq<(Output, World)>): State {
    OrBreak(Mapped(s.(awaitingSince := None), view, outputs))
  }

  /** What the loop does with an arm that fired. */
  function Body(s: State, t: Turn): State
    requires t.input.IdleTimer? ==> s.idleTimeout.Some?
  {
    match t.input
    case Line(view, outputs) => OnLine(s, view, outputs)
    case StdoutEof => End(s, Eof)
    case ReadError => Break(s)
    case Queue(command) => OrBreak(OnCommand(s, command, t.w))
    case ShutdownFlag => EnterStopping(s, Shutdown, None, false, t.w)
    case StageTimer => OnDeadline(s)
    case NotificationTimer(view, outputs) => OnNotificationTimer(s, view, outputs)
    case IdleTimer(queued) => OrBreak(Reap(s, queued, t.w))
    case _ => s
  }

  /** One step; an arm that cannot fire changes nothing. */
  ghost function Step(s: State, t: Turn): State {
    if !Enabled(s, t) then s
    else
      match t.input
      case EarlyLine(view, outputs) => OrBreak(Mapped(s, view, outputs))
      case EarlyLinesDone => s.(life := Looping)
      case ChildExited(bye) => Finish(s, bye, t.w)
      case _ => Body(Polled(s, t), t)
  }

  ghost function Run(s: State, turns: seq<Turn>): State
    decreases |turns|
  {
    if turns == [] then s else Run(Step(s, turns[0]), turns[1..])
  }
}
