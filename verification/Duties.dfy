/** What each event obliges the supervisor to do at once, told from its observations alone: a watch
    that follows a log, knows who waits for what, and holds the supervisor to it. */
module Duties {
  import opened Protocol
  import opened Trace

  /** What is due, in order. */
  datatype Agenda = Nothing | Then(first: Obs, rest: Agenda)

  /** Who waits for the answer to a control request; `value` when it wants what the CLI says. */
  datatype Caller = Caller(reply: Option<Token>, value: bool)

  /** What a `StartTurn` asks for. */
  datatype Start = Start(line: string, turn: TurnId, model: ModelRef, settings: TurnSettings,
                         notice: Option<string>, reply: Token)

  /** A hand-off, the request it awaits, and whether the model and the effort have to be sent. */
  datatype Underway = Underway(start: Start, stage: SetupStage, id: RequestId, sent: Instant, deadline: Instant,
                               budget: Instant, switches: bool, tunes: bool)

  datatype Halt = Ongoing | Interrupted(until: Instant) | Shut(until: Instant)

  datatype Settings = Settings(mode: string, model: ModelRef, effort: Option<string>)

  /** What the watch knows: what is due, the `StartTurn` taken last, the hand-off in hand, the one in
      flight, the callers by the request they wait for, the next request id, what the CLI was told and
      said it holds, the withdrawals, and how far the stop is. */
  datatype Watch = Watch(
    ok: bool,
    agenda: Agenda,
    taken: Option<Start>,
    hand: Option<Underway>,
    underway: Option<Underway>,
    callers: map<RequestId, Caller>,
    nextId: RequestId,
    held: Settings,
    withdrawn: set<AskId>,
    halt: Halt,
    reaped: bool,
    leaving: bool,
    over: bool)

  const UNSEEN: Watch :=
    Watch(true, Nothing, None, None, None, map[], 0, Settings("default", ModelRef("", None), None), {}, Ongoing,
          false, false, false)

  // ---- What is due after an event ------------------------------------------------------------

  function Last(o: Obs): Agenda {
    Then(o, Nothing)
  }

  function Tell(reply: Token, outcome: Outcome): Agenda {
    Last(Settled(reply, outcome))
  }

  /** A line was to be written to the CLI. */
  function Report(reply: Token, ok: bool): Agenda {
    Tell(reply, if ok then Done else Failed(WriteFailed))
  }

  function WrittenAt(scene: Scene): Instant {
    scene.at + scene.w.writing
  }

  /** A request whose answer the caller awaits. */
  function Request(nextId: RequestId, what: ControlKind, reply: Token, scene: Scene): Agenda {
    Then(ControlSent(nextId, what, Some(reply), WrittenAt(scene), scene.w.writeOk),
         if scene.w.writeOk then Nothing else Tell(reply, Failed(WriteFailed)))
  }

  /** What the request of a stage asks for. */
  function Asks(settings: TurnSettings, stage: SetupStage): Wish {
    match stage
    case Mode => SetMode(settings.mode)
    case Model => SetModel(settings.model)
    case Effort => SetEffort(settings.effort)
    case ReadBack => ReadSettings
  }

  function Send(nextId: RequestId, u: Underway, stage: SetupStage, scene: Scene): Agenda {
    Then(SettingsSent(u.start.reply, stage, Asks(u.start.settings, stage), nextId, WrittenAt(scene),
                      Min(WrittenAt(scene) + CONTROL_TIMEOUT, u.budget), u.budget, scene.w.writeOk),
         if scene.w.writeOk then Nothing else Tell(u.start.reply, Failed(WriteFailed)))
  }

  /** A turn opens, with its notice if it has one. */
  function Opening(turn: TurnId, notice: Option<string>, rest: Agenda): Agenda {
    Then(TurnStarted(turn), if notice.Some? then Then(Noticed(turn, notice.value), rest) else rest)
  }

  /** The settings are applied: the turn opens and its line is written. */
  function Go(start: Start, held: Settings, scene: Scene): Agenda {
    if scene.w.gaveUp then Tell(start.reply, Dropped)
    else if scene.active.Some? then Tell(start.reply, Failed(ThreadBusy))
    else
      Opening(start.turn, start.notice,
              Then(UserLine(start.reply, start.turn, start.line, start.settings, held.mode, held.model, held.effort,
                            None, 0, scene.w.writeOk),
                   Report(start.reply, scene.w.writeOk)))
  }

  function Began(start: Start, at: Instant): Underway {
    Underway(start, Mode, 0, at, at, at + TURN_SETTINGS_BUDGET, false, false)
  }

  predicate Occupied(scene: Scene) {
    scene.active.Some? || scene.handOffs > 0
  }

  /** What serving a command comes to. */
  function Service(w: Watch, c: Command, scene: Scene): Agenda {
    var gaveUp, ok := scene.w.gaveUp, scene.w.writeOk;
    match c
    case StartTurn(line, turn, model, settings, notice, reply) =>
      if gaveUp then Tell(reply, Dropped)
      else if Occupied(scene) then Tell(reply, Failed(ThreadBusy))
      else
        var began := Began(Start(line, turn, model, settings, notice, reply), scene.at);
        Then(HandOffBegan(reply, scene.at), Send(w.nextId, began, Mode, scene))
    case Interrupt(reply) => Request(w.nextId, UserInterrupt, reply, scene)
    case Control(reply) => Request(w.nextId, PlainControl, reply, scene)
    case RespondApproval(ask, decision, reply) =>
      if ask in w.withdrawn then Then(AskRefused(ask), Tell(reply, Failed(Withdrawn)))
      else if gaveUp then Then(AskReinserted(Approval, ask), Tell(reply, Dropped))
      else if decision == ExecPolicyAmendment then
        Then(AskReinserted(Approval, ask), Tell(reply, Failed(UnsupportedDecision)))
      else Then(AskAnswered(Approval, ask, Some(decision), ok), Report(reply, ok))
    case RespondServerRequest(ask, fits, reply) =>
      if ask in w.withdrawn then Then(AskRefused(ask), Then(AskCleared(ask), Tell(reply, Failed(Withdrawn))))
      else if gaveUp then Then(AskReinserted(ServerRequest, ask), Tell(reply, Dropped))
      else if !fits then Then(AskReinserted(ServerRequest, ask), Tell(reply, Failed(UnfitAnswer)))
      else
        Then(AskAnswered(ServerRequest, ask, None, ok),
             if ok then Then(AskCleared(ask), Report(reply, ok)) else Report(reply, ok))
    case StopTask(reply) =>
      (match scene.w.task
       case Running => Request(w.nextId, TaskStop, reply, scene)
       case NotYetStarted => Tell(reply, Failed(NotStarted))
       case Ended => Tell(reply, Done)
       case NoRoute => Tell(reply, Failed(NotARoute)))
    case StopBackgroundCommand(reply) =>
      if scene.w.command then Request(w.nextId, CommandStop, reply, scene)
      else Tell(reply, Failed(NoBackgroundCommand))
    case Compact(turn, notice, reply) =>
      if gaveUp then Tell(reply, Dropped)
      else if Occupied(scene) then Tell(reply, Failed(ThreadBusy))
      else Opening(turn, notice, Then(CompactLine(reply, turn, None, 0, ok), Report(reply, ok)))
    case Stop(_) => Nothing
  }

  /** What a caller learns from the answer to its request. */
  function Learned(caller: Caller, payload: Payload): Outcome {
    match payload
    case Success(_, _) => if caller.value then Value(payload) else Done
    case Error(message, _) => Failed(Refused(message))
    case Odd => Failed(OddResponse)
  }

  /** The mode is in: what differs from what the CLI holds has to be sent. */
  function Chosen(held: Settings, u: Underway): Underway {
    var settings := u.start.settings;
    var switches := settings.model.Some? && settings.model.value != held.model.model;
    u.(switches := switches, tunes := settings.effort.Some? && (switches || settings.effort != held.effort))
  }

  function Wanted(held: Settings, u: Underway): string {
    if u.start.settings.model.Some? then u.start.settings.model.value else held.model.model
  }

  /** The read-back names the model wanted, or what the catalog resolves it to. */
  predicate Applied(held: Settings, u: Underway, payload: Payload) {
    && payload.Success?
    && payload.appliedModel.Some?
    && (payload.appliedModel.value == Wanted(held, u) || u.start.settings.resolvedModel == payload.appliedModel)
  }

  /** What the CLI holds after a successful answer. */
  function Holds(held: Settings, u: Underway, payload: Payload): Settings
    requires payload.Success?
  {
    match u.stage
    case Mode => held.(mode := u.start.settings.mode)
    case ReadBack =>
      if !Applied(held, u, payload) then held
      else
        var model := if u.switches then u.start.model else held.model;
        held.(model := model.(effort := payload.appliedEffort), effort := payload.appliedEffort)
    case _ => held
  }

  function StageFailure(stage: SetupStage, payload: Payload): Failure
    requires !payload.Success?
  {
    if payload.Odd? then OddResponse
    else if stage == Model && payload.code == Some("catalog_unknown") then UnknownModel(payload.message)
    else Refused(payload.message)
  }

  function ModeDue(w: Watch, u: Underway, payload: Payload, scene: Scene): Agenda
    requires payload.Success? && u.stage.Mode?
  {
    var chosen := Chosen(w.held, u);
    if chosen.switches then Send(w.nextId, chosen, Model, scene)
    else if chosen.tunes then Send(w.nextId, chosen, Effort, scene)
    else Go(u.start, Holds(w.held, u, payload), scene)
  }

  function ReadBackDue(w: Watch, u: Underway, payload: Payload, scene: Scene): Agenda
    requires payload.Success? && u.stage.ReadBack?
  {
    var reply, wanted, held := u.start.reply, Wanted(w.held, u), Holds(w.held, u, payload);
    if !Applied(w.held, u, payload) then Tell(reply, Failed(WrongModel(payload.appliedModel, wanted)))
    else
      var rest :=
        if u.tunes && payload.appliedEffort != u.start.settings.effort && u.start.settings.effort.Some?
        then Tell(reply, Failed(EffortNotTaken(u.start.settings.effort.value, wanted)))
        else Go(u.start, held, scene);
      if scene.w.holdsEntry then Then(EntrySynced(held.model), rest) else rest
  }

  /** The request of the hand-off in flight was answered. */
  function Handed(w: Watch, u: Underway, payload: Payload, scene: Scene): Agenda {
    if !payload.Success? then Tell(u.start.reply, Failed(StageFailure(u.stage, payload)))
    else
      match u.stage
      case Mode => ModeDue(w, u, payload, scene)
      case Model => Send(w.nextId, u, if u.tunes then Effort else ReadBack, scene)
      case Effort => Send(w.nextId, u, ReadBack, scene)
      case ReadBack => ReadBackDue(w, u, payload, scene)
  }

  function AnswerDue(w: Watch, id: RequestId, payload: Payload, scene: Scene): Agenda {
    if w.underway.Some? && w.underway.value.id == id then Handed(w, w.underway.value, payload, scene)
    else if id in w.callers && w.callers[id].reply.Some? then
      Tell(w.callers[id].reply.value, Learned(w.callers[id], payload))
    else Nothing
  }

  /** The stop sequence begins: interrupt the live turn, else close stdin. */
  function HaltDue(w: Watch, joined: Option<Token>, scene: Scene): Agenda {
    var first :=
      if scene.active.None? then Last(StdinClosed(scene.at))
      else Then(ControlSent(w.nextId, StopInterrupt, None, WrittenAt(scene), scene.w.writeOk),
                if scene.w.writeOk then Nothing else Last(StdinClosed(WrittenAt(scene))));
    if joined.Some? then Then(StopJoined(joined.value), first) else first
  }

  /** The deadline in force passed. */
  function DeadlineDue(w: Watch, at: Instant): Agenda {
    match w.halt
    case Ongoing =>
      if w.underway.None? then Nothing
      else
        var u := w.underway.value;
        Tell(u.start.reply, Failed(TimedOut(u.stage, if u.deadline >= u.sent then u.deadline - u.sent else 0)))
    case Interrupted(_) => Last(StdinClosed(at))
    case Shut(_) => Last(Killed(true, at))
  }

  function Owed(w: Watch, o: Obs): Agenda {
    match o
    case Received(c, scene) => if w.halt.Ongoing? then Service(w, c, scene) else Tell(c.reply, Failed(ChildStopped))
    case Answered(id, payload, scene) => AnswerDue(w, id, payload, scene)
    case Stopping(_, joined, scene) => HaltDue(w, joined, scene)
    case StageDue(at) => DeadlineDue(w, at)
    case LineMapped(active, at) =>
      if active.None? && w.halt.Interrupted? then Last(StdinClosed(at)) else Nothing
    case AskWithdrawn(ask, found) =>
      if found == Some(ServerRequest) then Last(if w.reaped then OutputDropped else AskCleared(ask)) else Nothing
    case _ => Nothing
  }

  // ---- What may happen by itself -------------------------------------------------------------

  predicate Overdue(w: Watch, at: Instant) {
    match w.halt
    case Ongoing => w.underway.Some? && w.underway.value.deadline <= at
    case Interrupted(until) => until <= at
    case Shut(until) => until <= at
  }

  predicate AwaitedBy(w: Watch, reply: Token) {
    exists id <- w.callers :: w.callers[id].reply == Some(reply)
  }

  /** Whether `o` may happen with nothing due: everything the CLI, a caller or a timer brings may;
      nothing the supervisor does to them may. */
  predicate Spontaneous(w: Watch, o: Obs) {
    match o
    case Inherited(_, _, _) => w == UNSEEN
    case Received(c, scene) =>
      !c.Stop? && !w.over && !w.leaving && scene.handOffs == (if w.underway.Some? then 1 else 0)
    case Answered(_, _, _) => !w.over && !w.leaving
    case StageDue(at) => !w.over && !w.leaving && Overdue(w, at)
    case LineMapped(_, _) => !w.over && !w.leaving
    case LineRead(_) => !w.over && !w.leaving
    case LoopTop(_, _) => !w.over && !w.leaving
    case Stopping(_, _, _) => !w.over && w.halt.Ongoing? && w.underway.None?
    // A hand-off fails by itself only when the stop sequence begins or the child is gone.
    case Settled(reply, outcome) =>
      && !w.over && !w.leaving
      && w.underway.Some? && w.underway.value.start.reply == reply
      && (outcome == Failed(ChildStopped) || (outcome == Failed(ChildStopping) && w.halt.Ongoing?))
    // Whoever still waits for an answer, and nobody else, is failed with the child.
    case WaitersFailed(replies) =>
      && !w.leaving
      && (forall reply <- replies :: AwaitedBy(w, reply))
      && (forall id <- w.callers :: w.callers[id].reply.Some? ==> w.callers[id].reply.value in replies)
    case StopJoined(_) => !w.halt.Ongoing? && !w.leaving
    case Killed(grace, _) => !grace && !w.leaving
    case EntryReleased(model) => model == w.held.model && !w.leaving
    case OutputDropped => w.reaped && !w.leaving
    case AskWithdrawn(_, _) => !w.over && !w.leaving
    case HandOffBegan(_, _) => false
    case SettingsSent(_, _, _, _, _, _, _, _) => false
    case TurnStarted(_) => false
    case Noticed(_, _) => false
    case UserLine(_, _, _, _, _, _, _, _, _, _) => false
    case CompactLine(_, _, _, _, _) => false
    case ControlSent(_, _, _, _, _) => false
    case AskReinserted(_, _) => false
    case AskAnswered(_, _, _, _) => false
    case AskRefused(_) => false
    case AskCleared(_) => false
    case EntrySynced(_) => false
    case StdinClosed(_) => false
    case _ => !w.leaving
  }

  // ---- What the watch learns -----------------------------------------------------------------

  function StartOf(c: Command): Option<Start> {
    if c.StartTurn? then Some(Start(c.line, c.turn, c.model, c.settings, c.notice, c.reply)) else None
  }

  /** From an event that happens by itself. */
  function Notices(w: Watch, o: Obs): Watch {
    match o
    case Inherited(_, first, model) => w.(nextId := first, held := Settings("default", model, model.effort))
    case Received(c, _) => w.(taken := StartOf(c))
    case Answered(id, payload, _) =>
      if w.underway.Some? && w.underway.value.id == id then
        var u := w.underway.value;
        if !payload.Success? then w.(underway := None)
        else w.(underway := None, held := Holds(w.held, u, payload),
                hand := Some(if u.stage.Mode? then Chosen(w.held, u) else u))
      else w.(callers := w.callers - {id})
    case Stopping(_, _, scene) => w.(leaving := false, halt := Interrupted(scene.at + STOP_INTERRUPT_GRACE))
    case StageDue(_) => if w.halt.Ongoing? then w.(underway := None) else w
    case Settled(_, outcome) =>
      if outcome == Failed(ChildStopping) then w.(underway := None, leaving := true)
      else w.(underway := None, over := true)
    case WaitersFailed(_) => w.(callers := map[], over := true)
    case AskWithdrawn(ask, found) => if found.None? then w.(withdrawn := w.withdrawn + {ask}) else w
    case Reaped(_, _, _, _) => w.(reaped := true)
    case ExitHandled => w.(over := true)
    case _ => w
  }

  /** From what was due. */
  function Sees(w: Watch, o: Obs): Watch {
    match o
    case HandOffBegan(_, at) => if w.taken.Some? then w.(hand := Some(Began(w.taken.value, at))) else w
    case SettingsSent(_, stage, _, id, at, deadline, _, ok) =>
      w.(nextId := id + 1,
         underway := if ok && w.hand.Some?
                     then Some(w.hand.value.(stage := stage, id := id, sent := at, deadline := deadline)) else None)
    case ControlSent(id, what, caller, _, ok) =>
      w.(nextId := id + 1,
         callers := if ok then w.callers[id := Caller(caller, what.PlainControl?)] else w.callers)
    case TurnStarted(_) => w.(withdrawn := {})
    case AskRefused(ask) => w.(withdrawn := w.withdrawn - {ask})
    case StdinClosed(at) => w.(halt := Shut(at + STOP_EXIT_GRACE))
    case _ => w
  }

  function Follow(w: Watch, o: Obs): Watch {
    match w.agenda
    case Then(first, rest) => Sees(w, o).(ok := w.ok && o == first, agenda := rest)
    case Nothing => Notices(w, o).(ok := w.ok && Spontaneous(w, o), agenda := Owed(w, o))
  }

  function Watched(log: seq<Obs>): Watch {
    if log == [] then UNSEEN else Follow(Watched(log[..|log| - 1]), log[|log| - 1])
  }
}
