/** What one supervisor does, as a sequence of observations, and the specification every such
    sequence must meet. The specification never mentions the supervisor's own fields. */
module Trace {
  import opened Protocol

  datatype ControlKind = UserInterrupt | StopInterrupt | PlainControl | TaskStop | CommandStop

  datatype StopReason = StopAsked | Shutdown | HarnessDropped | Idle

  datatype Busy = TurnSetupBusy | AsksBusy | RoutesBusy | TasksBusy | ControlBusy | TurnBusy

  /** What an operation finds when it begins: the turn that is live, the hand-offs in flight, the time,
      and what it will learn from outside. */
  datatype Scene = Scene(active: Option<TurnId>, handOffs: nat, at: Instant, w: World)

  /** What a request of a hand-off says. */
  datatype Wish =
    | SetMode(mode: string)
    | SetModel(model: Option<string>)
    | SetEffort(level: Option<string>)
    | ReadSettings

  datatype Obs =
    // What the handshake hands over at spawn: its control requests that timed out, the first id that is
    // free, the model the CLI runs.
    | Inherited(ids: set<RequestId>, first: RequestId, model: ModelRef)
    // A command left the queue; a caller got its answer.
    | Received(command: Command, scene: Scene)
    | Settled(reply: Token, outcome: Outcome)
    | WaitersFailed(replies: multiset<Token>)
    // A `Stop` was collected; it was answered. Its channel carries no result and is of its own kind.
    | StopJoined(reply: Token)
    | StopAnswered(reply: Token)
    // The hand-off of a turn.
    | HandOffBegan(reply: Token, at: Instant)
    | SettingsSent(reply: Token, stage: SetupStage, wish: Wish, id: RequestId, at: Instant,
                   deadline: Instant, budget: Instant, ok: bool)
    | TurnStarted(turn: TurnId)
    | Noticed(turn: TurnId, message: string)
    | UserLine(reply: Token, turn: TurnId, line: string, settings: TurnSettings,
               mode: string, model: ModelRef, effort: Option<string>,
               active: Option<TurnId>, handOffs: nat, ok: bool)
    | CompactLine(reply: Token, turn: TurnId, active: Option<TurnId>, handOffs: nat, ok: bool)
    // Other control requests and every answer.
    | ControlSent(id: RequestId, what: ControlKind, caller: Option<Token>, at: Instant, ok: bool)
    | Answered(id: RequestId, payload: Payload, scene: Scene)
    | Unmatched(id: RequestId)
    // Asks.
    | AskRecorded(kind: AskKind, ask: AskId)
    | AskReinserted(kind: AskKind, ask: AskId)
    | AskWithdrawn(ask: AskId, found: Option<AskKind>)
    | AskAnswered(kind: AskKind, ask: AskId, told: Option<Decision>, ok: bool)
    | AskRefused(ask: AskId)
    | AskCleared(ask: AskId)
    | AsksForgotten(asks: set<AskId>)
    // Frames.
    | MapperWrote(ok: bool)
    | Published
    | OutputDropped
    | RoutePublished(thread: ThreadId)
    | RouteLeft(thread: ThreadId)
    // The loop and its timers.
    | LoopTop(at: Instant, busy: Option<Busy>)
    | LineRead(at: Instant)
    | LineMapped(active: Option<TurnId>, at: Instant)
    | StageDue(at: Instant)
    | RoutesCooled
    | ReapCancelled
    | Reaped(at: Instant, timeout: nat, handOffs: nat, waiting: nat)
    // The thread's entry.
    | EntrySynced(model: ModelRef)
    | EntryReleased(model: ModelRef)
    | EntryRemoved
    // The end.
    | Stopping(reason: StopReason, joined: Option<Token>, scene: Scene)
    | StdinClosed(at: Instant)
    | Killed(grace: bool, at: Instant)
    | AsksDropped(asks: set<AskId>)
    | LogClosed
    | ExitHandled

  /** How far one hand-off got: the rank of its last request and its budget. */
  datatype HandOff = HandOff(began: Instant, rank: int)

  /** Reply channels received and settled. */
  datatype ReplyBook = ReplyBook(received: multiset<Token>, settled: multiset<Token>)

  /** Control requests written and answered. */
  datatype RequestBook = RequestBook(written: set<RequestId>, answered: set<RequestId>)

  /** Hand-offs begun, turns begun, and the hand-offs whose user line was written; the hand-off begun
      last, and the turns begun since. */
  datatype TurnBook = TurnBook(handOffs: map<Token, HandOff>, begun: set<TurnId>, lines: set<Token>,
                               latest: Option<Token>, since: set<TurnId>)

  datatype EndBook = EndBook(stopping: bool, stdinClosed: bool, reaped: bool, exited: bool)

  /** When stdout last spoke, when the child was last busy, and the loop tops that found it idle. */
  datatype QuietBook = QuietBook(lastLine: Option<Instant>, lastBusy: Option<Instant>, idleTops: set<Instant>)

  /** What the past of a trace amounts to. */
  datatype Monitor = Monitor(
    ok: bool,
    replies: ReplyBook,
    stops: ReplyBook,
    requests: RequestBook,
    turns: TurnBook,
    ends: EndBook,
    quiet: QuietBook,
    withdrawn: set<AskId>)

  const START: Monitor :=
    Monitor(true, ReplyBook(multiset{}, multiset{}), ReplyBook(multiset{}, multiset{}), RequestBook({}, {}),
            TurnBook(map[], {}, {}, None, {}), EndBook(false, false, false, false), QuietBook(None, None, {}), {})

  function Later(known: Option<Instant>, at: Instant): Option<Instant> {
    if known.Some? then Some(Max(known.value, at)) else Some(at)
  }

  /** The instant lies at least `quiet` before `at`. */
  predicate LongAgo(known: Option<Instant>, quiet: nat, at: Instant) {
    known.Some? ==> known.value + quiet <= at
  }

  /** The settings the CLI is known to hold are the ones the turn asked for. */
  predicate SettingsHold(settings: TurnSettings, mode: string, model: ModelRef, effort: Option<string>) {
    && mode == settings.mode
    && (settings.model.Some? ==> model.model == settings.model.value)
    && (settings.effort.Some? ==> effort == settings.effort)
  }

  /** A reply channel received and not yet settled. */
  predicate Open(book: ReplyBook, reply: Token) {
    book.settled[reply] < book.received[reply]
  }

  /** Whether `o` may follow a past summed up by `m`. */
  predicate Allowed(m: Monitor, o: Obs) {
    match o
    case Inherited(_, _, _) => m == START
    // Each reply channel is received once and settled at most once.
    case Received(command, _) => m.replies.received[command.reply] == 0 && !m.ends.exited
    case Settled(reply, _) => Open(m.replies, reply)
    case WaitersFailed(replies) => m.replies.settled + replies <= m.replies.received
    // A stop is collected once, while stopping, and answered once, after exit handling.
    case StopJoined(reply) => m.stops.received[reply] == 0 && m.ends.stopping && !m.ends.exited
    case StopAnswered(reply) => Open(m.stops, reply) && m.ends.exited
    // A hand-off begins once, sends its requests in increasing stage order within its budget.
    case HandOffBegan(reply, _) => reply !in m.turns.handOffs && !m.ends.stopping
    case SettingsSent(reply, stage, _, id, at, deadline, budget, _) =>
      && reply in m.turns.handOffs
      && m.turns.handOffs[reply].rank < Rank(stage)
      && budget == m.turns.handOffs[reply].began + TURN_SETTINGS_BUDGET
      && deadline == Min(at + CONTROL_TIMEOUT, budget)
      && id !in m.requests.written
      && !m.ends.stopping
    // A user line: one per hand-off, after its turn began, its settings in force, nothing else live.
    case UserLine(reply, turn, _, settings, mode, model, effort, active, handOffs, _) =>
      && turn in m.turns.since
      && m.turns.latest == Some(reply)
      && reply in m.turns.handOffs
      && reply !in m.turns.lines
      && SettingsHold(settings, mode, model, effort)
      && active == None
      && handOffs == 0
      && !m.ends.stopping
    case CompactLine(_, turn, active, handOffs, _) =>
      turn in m.turns.begun && active == None && handOffs == 0 && !m.ends.stopping
    // A stopping child is sent nothing but the stop's own interrupt, before its stdin closes.
    case ControlSent(id, what, _, _, _) =>
      && id !in m.requests.written
      && (what == StopInterrupt <==> m.ends.stopping)
      && !m.ends.stdinClosed
    case Answered(id, _, _) => id in m.requests.written && id !in m.requests.answered
    case Unmatched(id) => id !in m.requests.written || id in m.requests.answered
    // A withdrawn ask is not answered; a stopping child answers none.
    case AskAnswered(_, ask, _, _) => ask !in m.withdrawn && !m.ends.stopping && !m.ends.exited
    // A reaped child publishes nothing, leaves its thread's entry and log alone, and adds, clears or drops
    // no ask; a withdrawal and the end of a route may still take pending asks away.
    case AskRecorded(_, _) => !m.ends.reaped && !m.ends.exited
    case AskReinserted(_, ask) => ask !in m.withdrawn && !m.ends.stopping && !m.ends.reaped && !m.ends.exited
    case AskRefused(ask) => ask in m.withdrawn && !m.ends.stopping && !m.ends.exited
    case AskWithdrawn(_, _) => !m.ends.exited
    case TurnStarted(_) => !m.ends.stopping && !m.ends.reaped
    case Noticed(turn, _) => turn in m.turns.begun && !m.ends.stopping && !m.ends.reaped
    case AskCleared(_) => !m.ends.reaped
    case Published => !m.ends.reaped
    case RoutePublished(_) => !m.ends.reaped && !m.ends.exited
    case EntrySynced(_) => !m.ends.stopping && !m.ends.reaped && !m.ends.exited
    case EntryReleased(_) => !m.ends.stopping && !m.ends.reaped
    case EntryRemoved => !m.ends.reaped && !m.ends.exited
    case AsksDropped(_) => !m.ends.reaped
    case LogClosed => !m.ends.reaped && !m.ends.exited
    case OutputDropped => m.ends.reaped
    // A reap: quiet and idle for the whole timeout, nothing in hand.
    case Reaped(at, timeout, handOffs, waiting) =>
      && LongAgo(m.quiet.lastLine, timeout, at)
      && LongAgo(m.quiet.lastBusy, timeout, at)
      && (exists top <- m.quiet.idleTops :: top + timeout <= at)
      && handOffs == 0
      && waiting == 0
      && !m.ends.stopping
      && !m.ends.exited
    // The stop sequence runs once and for all; stdin is closed before a grace kill.
    case Stopping(_, _, _) => !m.ends.stopping
    case StdinClosed(_) => m.ends.stopping && !m.ends.stdinClosed
    case Killed(grace, _) => grace ==> m.ends.stdinClosed
    case ExitHandled => !m.ends.exited
    case _ => true
  }

  /** The hand-off book after a request of `stage`. */
  function Advance(book: TurnBook, reply: Token, stage: SetupStage): TurnBook {
    if reply in book.handOffs
    then book.(handOffs := book.handOffs[reply := book.handOffs[reply].(rank := Rank(stage))])
    else book
  }

  function Write(book: RequestBook, id: RequestId, ok: bool): RequestBook {
    if ok then book.(written := book.written + {id}) else book
  }

  function SettleAll(book: ReplyBook, replies: multiset<Token>): ReplyBook {
    book.(settled := book.settled + replies)
  }

  function Observe(m: Monitor, o: Obs): Monitor {
    var m := m.(ok := m.ok && Allowed(m, o));
    match o
    case Inherited(ids, _, _) => m.(requests := m.requests.(written := m.requests.written + ids))
    case Received(command, _) =>
      m.(replies := m.replies.(received := m.replies.received + multiset{command.reply}))
    case Settled(reply, _) => m.(replies := SettleAll(m.replies, multiset{reply}))
    case WaitersFailed(replies) => m.(replies := SettleAll(m.replies, replies))
    case StopJoined(reply) => m.(stops := m.stops.(received := m.stops.received + multiset{reply}))
    case StopAnswered(reply) => m.(stops := SettleAll(m.stops, multiset{reply}))
    case HandOffBegan(reply, at) =>
      m.(turns := m.turns.(handOffs := m.turns.handOffs[reply := HandOff(at, -1)], latest := Some(reply), since := {}))
    case SettingsSent(reply, stage, _, id, _, _, _, ok) =>
      m.(turns := Advance(m.turns, reply, stage), requests := Write(m.requests, id, ok))
    // Asks belong to a turn: a new one forgets the withdrawals of earlier ones.
    case TurnStarted(turn) =>
      m.(turns := m.turns.(begun := m.turns.begun + {turn}, since := m.turns.since + {turn}), withdrawn := {})
    case UserLine(reply, _, _, _, _, _, _, _, _, _) =>
      m.(turns := m.turns.(lines := m.turns.lines + {reply}))
    case ControlSent(id, _, _, _, ok) => m.(requests := Write(m.requests, id, ok))
    case Answered(id, _, _) => m.(requests := m.requests.(answered := m.requests.answered + {id}))
    case AskWithdrawn(ask, found) => if found.None? then m.(withdrawn := m.withdrawn + {ask}) else m
    case AskRefused(ask) => m.(withdrawn := m.withdrawn - {ask})
    case LoopTop(at, busy) =>
      m.(quiet := if busy.Some? then m.quiet.(lastBusy := Later(m.quiet.lastBusy, at))
                  else m.quiet.(idleTops := m.quiet.idleTops + {at}))
    case LineRead(at) => m.(quiet := m.quiet.(lastLine := Later(m.quiet.lastLine, at)))
    case Reaped(_, _, _, _) => m.(ends := m.ends.(reaped := true))
    case Stopping(_, _, _) => m.(ends := m.ends.(stopping := true))
    case StdinClosed(_) => m.(ends := m.ends.(stdinClosed := true))
    case ExitHandled => m.(ends := m.ends.(exited := true))
    case _ => m
  }

  /** The monitor's verdict on a whole trace. */
  function Summary(log: seq<Obs>): Monitor {
    if log == [] then START else Observe(Summary(log[..|log| - 1]), log[|log| - 1])
  }
}
