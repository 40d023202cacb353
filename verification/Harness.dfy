/** The facade and its supervisors as one system: every section that runs under a lock is one
    step, and any task may take the next step. */
module Harness {
  import opened Protocol

  type Generation = int
  type LogId = int
  type OpenerId = int

  const COMMAND_QUEUE: nat := 16

  /** One primary thread: its log, the generation of its live child, the model the CLI holds. */
  datatype Entry = Entry(log: LogId, child: Option<Generation>, model: ModelRef)

  /** A route to a sub-agent; only a live one has an owner and reaches its child's queue. */
  datatype Route = Route(owner: Option<ThreadId>, child: Option<Generation>)

  datatype Stage =
    | Live
    | Cooled          // in a reap: its routes are cold, its entry not yet locked
    | Reaped          // taken out of its entry; stopping
    | Halting         // stopping for any other reason
    | Exiting         // past its loop: its routes are cold, its log still open
    | LogShut         // its log is closed, its entry not yet locked
    | Departed        // out of its entry; its queue is about to go
    | Gone(wasReaped: bool)

  datatype Supervised = Supervised(thread: ThreadId, log: LogId, queue: seq<Command>, stage: Stage)

  /** A facade call that spawned a child: the child waits to be registered, was refused and is to
      be reaped by the call, is supervised, or was reaped. */
  datatype Opener =
    | Waiting(thread: ThreadId, respawn: bool, model: ModelRef)
    | TurnedAway
    | Registered(child: Generation)
    | Discarded

  datatype System = System(
    threads: map<ThreadId, Entry>,
    routes: map<ThreadId, Route>,
    sups: map<Generation, Supervised>,
    openLogs: set<LogId>,
    nextLog: LogId,
    nextGeneration: Generation,
    openers: map<OpenerId, Opener>,
    handles: set<Generation>,      // taken out of the map by a stop, which may still send `Stop`
    sent: multiset<Token>,         // the commands that ever entered a queue, by reply channel
    shutdown: bool,
    drained: bool,
    refusedIdle: bool)             // a command was refused by a child reaped for idleness

  const EMPTY: System := System(map[], map[], map[], {}, 0, 0, map[], {}, multiset{}, false, false, false)

  predicate WasReaped(stage: Stage) {
    stage.Reaped? || (stage.Gone? && stage.wasReaped)
  }

  predicate Holds(s: System, g: Generation) {
    g in s.sups && s.sups[g].thread in s.threads && s.threads[s.sups[g].thread].child == Some(g)
  }

  // ---- The facade's sections -----------------------------------------------------------------

  /** What a look-up and enqueue under the `threads` lock came to. */
  datatype Enqueued = Sent | NoThread | NoChild | QueueFull | QueueClosed

  /** Put a command in a child's queue without waiting. */
  function SendNow(s: System, g: Generation, c: Command): (System, Enqueued)
    requires g in s.sups
  {
    var sup := s.sups[g];
    if sup.stage.Gone? then (s, QueueClosed)
    else if |sup.queue| >= COMMAND_QUEUE then (s, QueueFull)
    else (s.(sups := s.sups[g := sup.(queue := sup.queue + [c])], sent := s.sent + multiset{c.reply}), Sent)
  }

  function Enqueue(s: System, thread: ThreadId, c: Command): (System, Enqueued) {
    if thread !in s.threads then (s, NoThread)
    else if s.threads[thread].child.None? then (s, NoChild)
    else if s.threads[thread].child.value !in s.sups then (s, QueueClosed)
    else SendNow(s, s.threads[thread].child.value, c)
  }

  /** `stop_task` through the child that carries the route, under the `routes` lock. */
  function InterruptRoute(s: System, thread: ThreadId, c: Command): (System, Enqueued) {
    if thread !in s.routes then (s, NoThread)
    else if s.routes[thread].child.None? then (s, NoChild)
    else if s.routes[thread].child.value !in s.sups then (s, QueueClosed)
    else SendNow(s, s.routes[thread].child.value, c)
  }

  /** Register a handshaken child, or refuse it, under the `threads` lock. */
  function Register(s: System, opener: OpenerId): System
    requires opener in s.openers && s.openers[opener].Waiting?
  {
    var Waiting(thread, respawn, model) := s.openers[opener];
    var refused := s.(openers := s.openers[opener := TurnedAway]);
    var registered := Registered(s.nextGeneration);
    if s.shutdown then refused
    else if thread !in s.threads then
      if respawn then refused
      else
        s.(openers := s.openers[opener := registered],
           sups := s.sups[s.nextGeneration := Supervised(thread, s.nextLog, [], Live)],
           threads := s.threads[thread := Entry(s.nextLog, Some(s.nextGeneration), model)],
           openLogs := s.openLogs + {s.nextLog},
           nextLog := s.nextLog + 1,
           nextGeneration := s.nextGeneration + 1)
    else
      var entry := s.threads[thread];
      if entry.child.Some? || !respawn then refused
      else
        s.(openers := s.openers[opener := registered],
           sups := s.sups[s.nextGeneration := Supervised(thread, entry.log, [], Live)],
           threads := s.threads[thread := entry.(child := Some(s.nextGeneration), model := model)],
           nextGeneration := s.nextGeneration + 1)
  }

  /** Forget a thread: its child is to be stopped, or its log closes. */
  function Forget(s: System, thread: ThreadId): System
    requires thread in s.threads
  {
    var entry := s.threads[thread];
    var gone := s.(threads := s.threads - {thread});
    if entry.child.Some? then gone.(handles := s.handles + {entry.child.value})
    else gone.(openLogs := s.openLogs - {entry.log})
  }

  function ChildrenOf(threads: map<ThreadId, Entry>, some: set<ThreadId>): set<Generation> {
    set t | t in some && t in threads && threads[t].child.Some? :: threads[t].child.value
  }

  function SlotLogs(threads: map<ThreadId, Entry>, some: set<ThreadId>): set<LogId> {
    set t | t in some && t in threads && threads[t].child.None? :: threads[t].log
  }

  /** Shutdown's drain of the map. */
  function DrainThreads(s: System): System {
    s.(threads := map[], handles := s.handles + ChildrenOf(s.threads, s.threads.Keys),
       openLogs := s.openLogs - SlotLogs(s.threads, s.threads.Keys), drained := true)
  }

  // ---- The supervisors' sections -------------------------------------------------------------

  function CoolRoutes(routes: map<ThreadId, Route>, owner: ThreadId, g: Generation): map<ThreadId, Route> {
    map t | t in routes ::
      if routes[t].owner == Some(owner) && routes[t].child == Some(g) then Route(None, None) else routes[t]
  }

  function Staged(s: System, g: Generation, stage: Stage): System
    requires g in s.sups
  {
    s.(sups := s.sups[g := s.sups[g].(stage := stage)])
  }

  /** The idle timer, first section: the child's routes turn cold. */
  function Cool(s: System, g: Generation): System
    requires g in s.sups
  {
    Staged(s, g, Cooled).(routes := CoolRoutes(s.routes, s.sups[g].thread, g))
  }

  /** The child goes back into its entry, its first command in hand. */
  function CancelReap(s: System, g: Generation): System
    requires g in s.sups && s.sups[g].queue != []
  {
    var sup := s.sups[g];
    s.(sups := s.sups[g := sup.(stage := Live, queue := sup.queue[1..])])
  }

  /** The child leaves its entry, which keeps the model the CLI held. */
  function Release(s: System, g: Generation, model: ModelRef): System
    requires g in s.sups && s.sups[g].thread in s.threads
  {
    var sup := s.sups[g];
    s.(sups := s.sups[g := sup.(stage := Reaped)],
       threads := s.threads[sup.thread := s.threads[sup.thread].(child := None, model := model)])
  }

  /** The idle timer, second section: take the child out of its entry and drain its queue. */
  function Take(s: System, g: Generation, model: ModelRef): System
    requires g in s.sups
  {
    if !Holds(s, g) then Staged(s, g, Halting)
    else if s.sups[g].queue != [] then CancelReap(s, g)
    else Release(s, g, model)
  }

  /** The supervisor takes a command from its queue; a stopping one refuses it. */
  function Receive(s: System, g: Generation): System
    requires g in s.sups && s.sups[g].queue != []
  {
    var sup := s.sups[g];
    s.(sups := s.sups[g := sup.(queue := sup.queue[1..])],
       refusedIdle := s.refusedIdle || (sup.stage.Reaped? && !sup.queue[0].Stop?))
  }

  /** The loop ended: the child's routes turn cold. */
  function BeginExit(s: System, g: Generation): System
    requires g in s.sups
  {
    Staged(s, g, Exiting).(routes := CoolRoutes(s.routes, s.sups[g].thread, g))
  }

  function CloseLog(s: System, g: Generation): System
    requires g in s.sups
  {
    Staged(s, g, LogShut).(openLogs := s.openLogs - {s.sups[g].log})
  }

  function LeaveEntry(s: System, g: Generation): System
    requires g in s.sups
  {
    var sups := s.sups[g := s.sups[g].(stage := Departed)];
    if Holds(s, g) then s.(sups := sups, threads := s.threads - {s.sups[g].thread}) else s.(sups := sups)
  }

  function SyncModel(s: System, g: Generation, model: ModelRef): System
    requires g in s.sups
  {
    if Holds(s, g) then
      var thread := s.sups[g].thread;
      s.(threads := s.threads[thread := s.threads[thread].(model := model)])
    else s
  }

  /** The supervisor of `g` publishes or reopens a route, under the `routes` lock. */
  function PublishRoute(s: System, g: Generation, route: ThreadId): System
    requires g in s.sups
  {
    s.(routes := s.routes[route := Route(Some(s.sups[g].thread), Some(g))])
  }

  // ---- Steps ---------------------------------------------------------------------------------

  datatype Move =
    | Handshaken(opener: OpenerId, thread: ThreadId, respawn: bool, model: ModelRef)
    | Registers(opener: OpenerId)
    | Discards(opener: OpenerId)
    | Sends(thread: ThreadId, command: Command)
    | StopsRoute(thread: ThreadId, command: Command)
    | Claims(thread: ThreadId)
    | Forgets(thread: ThreadId)
    | ForgetsRoute(thread: ThreadId)
    | SendsStop(g: Generation, command: Command)
    | Aborts(g: Generation)
    | RaisesShutdown
    | DrainsThreads
    | DrainsRoutes
    | PublishesRoute(g: Generation, route: ThreadId)
    | Cools(g: Generation)
    | Takes(g: Generation, model: ModelRef)
    | Receives(g: Generation)
    | Halts(g: Generation)
    | Exits(g: Generation)
    | ClosesLog(g: Generation)
    | Leaves(g: Generation)
    | Drops(g: Generation)
    | Syncs(g: Generation, model: ModelRef)

  predicate Cooling(s: System, g: Generation) {
    g in s.sups && s.sups[g].stage.Cooled?
  }

  predicate Serving(s: System, g: Generation) {
    g in s.sups && s.sups[g].stage.Live?
  }

  /** In its loop, its routes its own. */
  predicate Looping(s: System, g: Generation) {
    g in s.sups && (s.sups[g].stage.Live? || s.sups[g].stage.Halting?)
  }

  predicate CanMove(s: System, m: Move) {
    match m
    case Handshaken(opener, _, _, _) => opener !in s.openers
    case Registers(opener) => opener in s.openers && s.openers[opener].Waiting?
    case Discards(opener) => opener in s.openers && s.openers[opener].TurnedAway?
    case Sends(_, _) => true
    case StopsRoute(_, _) => true
    case Claims(thread) => thread !in s.routes
    case Forgets(thread) => thread in s.threads
    case ForgetsRoute(_) => true
    case SendsStop(g, command) => g in s.handles && g in s.sups && command.Stop?
    case Aborts(g) => g in s.handles && g in s.sups
    case RaisesShutdown => true
    case DrainsThreads => s.shutdown
    case DrainsRoutes => s.drained
    // A supervisor's own steps: a reap is two sections with nothing of its own in between, and a
    // reaped child publishes no route.
    case PublishesRoute(g, _) => Looping(s, g)
    case Cools(g) => Serving(s, g)
    case Takes(g, _) => Cooling(s, g)
    case Receives(g) => g in s.sups && (Looping(s, g) || s.sups[g].stage.Reaped?) && s.sups[g].queue != []
    case Halts(g) => Serving(s, g)
    case Exits(g) => Looping(s, g)
    case ClosesLog(g) => g in s.sups && s.sups[g].stage.Exiting?
    case Leaves(g) => g in s.sups && s.sups[g].stage.LogShut?
    // A reaped child's exit touches no log and no entry.
    case Drops(g) => g in s.sups && (s.sups[g].stage.Departed? || s.sups[g].stage.Reaped?)
    case Syncs(g, _) => Serving(s, g)
  }

  function Moved(s: System, m: Move): System
    requires CanMove(s, m)
  {
    match m
    case Handshaken(opener, thread, respawn, model) =>
      s.(openers := s.openers[opener := Waiting(thread, respawn, model)])
    case Registers(opener) => Register(s, opener)
    case Discards(opener) => s.(openers := s.openers[opener := Discarded])
    case Sends(thread, command) => Enqueue(s, thread, command).0
    case StopsRoute(thread, command) => InterruptRoute(s, thread, command).0
    case Claims(thread) => s.(routes := s.routes[thread := Route(None, None)])
    case Forgets(thread) => Forget(s, thread)
    case ForgetsRoute(thread) => s.(routes := s.routes - {thread})
    case SendsStop(g, command) => SendNow(s, g, command).0
    case Aborts(g) =>
      Staged(s, g, Gone(WasReaped(s.sups[g].stage))).(openLogs := s.openLogs - {s.sups[g].log})
    case RaisesShutdown => s.(shutdown := true)
    case DrainsThreads => DrainThreads(s)
    case DrainsRoutes => s.(routes := map[])
    case PublishesRoute(g, route) => PublishRoute(s, g, route)
    case Cools(g) => Cool(s, g)
    case Takes(g, model) => Take(s, g, model)
    case Receives(g) => Receive(s, g)
    case Halts(g) => Staged(s, g, Halting)
    case Exits(g) => BeginExit(s, g)
    case ClosesLog(g) => CloseLog(s, g)
    case Leaves(g) => LeaveEntry(s, g)
    case Drops(g) => Staged(s, g, Gone(WasReaped(s.sups[g].stage)))
    case Syncs(g, model) => SyncModel(s, g, model)
  }

  /** A move that cannot be made changes nothing. */
  function Next(s: System, m: Move): System {
    if CanMove(s, m) then Moved(s, m) else s
  }

  function Run(s: System, moves: seq<Move>): System
    decreases |moves|
  {
    if moves == [] then s else Run(Next(s, moves[0]), moves[1..])
  }
}
