/** The vocabulary of the Claude harness: what the facade asks of a supervisor, what the CLI's
    frames become, and what the environment decides. */
module Protocol {

  datatype Option<+T> = None | Some(value: T)

  /** Milliseconds on the monotonic clock. */
  type Instant = nat
  /** The identity of one oneshot reply channel. */
  type Token = nat
  /** A control request this adapter wrote. */
  type RequestId = nat
  /** The CLI's own `request_id` of an ask. */
  type AskId = nat
  type TurnId = nat
  type ThreadId = nat

  const CONTROL_TIMEOUT: nat := 10_000
  const TURN_SETTINGS_BUDGET: nat := 25_000
  const STOP_INTERRUPT_GRACE: nat := 5_000
  const STOP_EXIT_GRACE: nat := 5_000
  const NOTIFICATION_GRACE: nat := 2_000

  function Min(a: nat, b: nat): nat {
    if a <= b then a else b
  }

  function Max(a: nat, b: nat): nat {
    if a <= b then b else a
  }

  datatype ModelRef = ModelRef(model: string, effort: Option<string>)

  /** What a turn asks for; `None` leaves the CLI's value alone. */
  datatype TurnSettings = TurnSettings(
    mode: string,
    model: Option<string>,
    effort: Option<string>,
    resolvedModel: Option<string>)

  datatype Decision = Accept | AcceptForSession | Decline | Cancel | ExecPolicyAmendment

  datatype AskKind = Approval | ServerRequest

  datatype Command =
    | StartTurn(line: string, turn: TurnId, model: ModelRef, settings: TurnSettings,
                notice: Option<string>, reply: Token)
    | Interrupt(reply: Token)
    | Control(reply: Token)
    | RespondApproval(ask: AskId, decision: Decision, reply: Token)
    | RespondServerRequest(ask: AskId, fits: bool, reply: Token)
    | StopTask(reply: Token)
    | StopBackgroundCommand(reply: Token)
    | Compact(turn: TurnId, notice: Option<string>, reply: Token)
    | Stop(reply: Token)

  /** The facade fills `settings` from the very `model` it sends. */
  predicate FromFacade(c: Command) {
    c.StartTurn? && c.settings.model.Some? ==> c.settings.model.value == c.model.model
  }

  /** A control response, reduced to the fields the supervisor reads. */
  datatype Payload =
    | Success(appliedModel: Option<string>, appliedEffort: Option<string>)
    | Error(message: string, code: Option<string>)
    | Odd

  datatype Failure =
    | ThreadBusy
    | ChildStopped
    | ChildStopping
    | WriteFailed
    | Withdrawn
    | NotStarted
    | NotARoute
    | NoBackgroundCommand
    | UnsupportedDecision
    | UnfitAnswer
    | TimedOut(stage: SetupStage, waited: nat)
    | Refused(message: string)
    | UnknownModel(message: string)
    | OddResponse
    | WrongModel(applied: Option<string>, wanted: string)
    | EffortNotTaken(level: string, wanted: string)

  /** What a caller learns; `Dropped` when it had already given up listening. */
  datatype Outcome = Done | Value(payload: Payload) | Failed(why: Failure) | Dropped

  datatype SetupStage = Mode | Model | Effort | ReadBack

  function Rank(stage: SetupStage): nat {
    match stage
    case Mode => 0
    case Model => 1
    case Effort => 2
    case ReadBack => 3
  }

  /** What the mapper makes of a frame. */
  datatype Output =
    | Event
    | Reply
    | ControlResponse(id: RequestId, payload: Payload)
    | PendingAsk(kind: AskKind, ask: AskId)
    | CancelRequest(ask: AskId)
    | RouteOpened(thread: ThreadId)
    | RouteReopened(thread: ThreadId)
    | RouteClosed(thread: ThreadId)

  /** The mapper as the supervisor sees it: any frame may change any of it. */
  datatype MapperView = MapperView(active: Option<TurnId>, routes: bool, tasks: bool, awaiting: bool)

  datatype TaskLookup = Running | NotYetStarted | Ended | NoRoute

  /** Everything one operation learns from outside: how long it waited and wrote, whether its one
      write succeeded, whether its caller gave up, and what it finds in the shared maps: `asks` are the
      pending asks of the route or the thread it ends. */
  datatype World = World(
    waited: nat,
    writing: nat,
    writeOk: bool,
    gaveUp: bool,
    pending: Option<AskKind>,
    task: TaskLookup,
    command: bool,
    holdsEntry: bool,
    asks: set<AskId>)
}
