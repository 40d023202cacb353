/** What the facade's calls do, section by section: the other tasks' moves at each await, and whether a
    child could be spawned, are given. */
module Calls {
  import opened Protocol
  import opened Harness

  /** Why a call ended without its command being sent. */
  datatype Trouble = ThreadNotFound | ShutDown | SpawnFailed | OpenedConcurrently | Declined | QueueTrouble | ReapedTwice

  datatype Respawn = AlreadyLive(model: ModelRef) | Respawned(child: Generation) | NoRespawn(why: Trouble)

  datatype Sending = Enqueued(child: Generation) | NotSent(why: Trouble)

  /** What one attempt meets: the other tasks' moves at its awaits, the model of the child it spawns, if
      it can, and whether the live child's mode refuses the command. */
  datatype Trip = Trip(awaits: seq<seq<Move>>, spawn: Option<ModelRef>, declined: bool)

  function Gap(trip: Trip, k: nat): seq<Move> {
    if k < |trip.awaits| then trip.awaits[k] else []
  }

  /** The system after `k` awaits, as long as the call itself changed nothing. */
  function At(s: System, trip: Trip, k: nat): System {
    if k == 0 then s else Run(At(s, trip, k - 1), Gap(trip, k - 1))
  }

  predicate Lives(s: System, thread: ThreadId) {
    thread in s.threads && s.threads[thread].child.Some?
  }

  /** The entry is there, its child reaped. */
  predicate Empty(s: System, thread: ThreadId) {
    thread in s.threads && s.threads[thread].child.None?
  }

  /** Why a handshaken child is turned away. */
  function Refusal(s: System, thread: ThreadId, respawn: bool): Option<Trouble> {
    if s.shutdown then Some(ShutDown)
    else if thread !in s.threads then (if respawn then Some(ThreadNotFound) else None)
    else if Lives(s, thread) || !respawn then Some(OpenedConcurrently)
    else None
  }

  /** Spawn a child, handshake with it and register it; a child turned away is reaped. `s` is the system
      when the handshake is over. */
  function SpawnRun(s: System, thread: ThreadId, respawn: bool, opener: OpenerId, spawn: Option<ModelRef>,
                    reaping: seq<Move>): (System, Option<Trouble>)
  {
    if spawn.None? then (s, Some(SpawnFailed))
    else
      var asked := s.(openers := s.openers[opener := Waiting(thread, respawn, spawn.value)]);
      var after := Register(asked, opener);
      var refusal := Refusal(s, thread, respawn);
      if refusal.None? then (after, None)
      else
        var reaped := Run(after, reaping);
        (reaped.(openers := reaped.openers[opener := Discarded]), refusal)
  }

  /** Make sure the thread has a live child, respawning a reaped one. */
  function EnsureRun(s: System, thread: ThreadId, opener: OpenerId, trip: Trip): (System, Respawn) {
    if Lives(s, thread) then (s, AlreadyLive(s.threads[thread].model))
    else if thread !in At(s, trip, 1).threads then (At(s, trip, 1), NoRespawn(ThreadNotFound))
    else if Lives(At(s, trip, 2), thread) then
      (At(s, trip, 2), AlreadyLive(At(s, trip, 2).threads[thread].model))
    else if At(s, trip, 3).shutdown then (At(s, trip, 3), NoRespawn(ShutDown))
    else if thread !in At(s, trip, 4).threads then (At(s, trip, 4), NoRespawn(ThreadNotFound))
    else
      var (after, trouble) := SpawnRun(At(s, trip, 5), thread, true, opener, trip.spawn, Gap(trip, 5));
      (after, if trouble.Some? then NoRespawn(trouble.value) else Respawned(At(s, trip, 5).nextGeneration))
  }

  /** One attempt: a live child, and the command in its queue. Without an outcome the child was reaped
      in between. */
  function TripRun(s: System, thread: ThreadId, c: Command, opener: OpenerId, trip: Trip): (System, Option<Sending>) {
    var (ensured, r) := EnsureRun(s, thread, opener, trip);
    if r.NoRespawn? then (ensured, Some(NotSent(r.why)))
    else
      var ready := Run(ensured, Gap(trip, 6));
      if trip.declined && Lives(ready, thread) then (ready, Some(NotSent(Declined)))
      else
        var (after, how) := Enqueue(ready, thread, c);
        (after,
         match how
         case Sent => if Lives(ready, thread) then Some(Enqueued(ready.threads[thread].child.value)) else None
         case NoThread => Some(NotSent(ThreadNotFound))
         case NoChild => None
         case QueueFull => Some(NotSent(QueueTrouble))
         case QueueClosed => Some(NotSent(QueueTrouble)))
  }

  /** `enqueue_respawning`: two attempts at most. */
  function EnqueueRun(s: System, thread: ThreadId, c: Command, first: OpenerId, second: OpenerId, one: Trip, two: Trip)
    : (System, Sending)
  {
    var (after, r) := TripRun(s, thread, c, first, one);
    if r.Some? then (after, r.value)
    else
      var (last, again) := TripRun(after, thread, c, second, two);
      (last, if again.Some? then again.value else NotSent(ReapedTwice))
  }

  /** `open_thread`: its live child, a respawn of its reaped one, or a first child. */
  function OpenRun(s: System, thread: ThreadId, opener: OpenerId, trip: Trip, rest: Trip): (System, Option<Trouble>) {
    if s.shutdown then (s, Some(ShutDown))
    else
      var seen := At(s, trip, 1);
      if Lives(seen, thread) then (seen, None)
      else if thread in seen.threads then
        var (after, r) := EnsureRun(Run(seen, Gap(trip, 1)), thread, opener, rest);
        (after, if r.NoRespawn? then Some(r.why) else None)
      else
        SpawnRun(At(s, trip, 2), thread, false, opener, trip.spawn, Gap(trip, 2))
  }

  // ---- What the outcomes mean ----------------------------------------------------------------

  /** The thread's entry holds a new child of its log, with nothing queued. */
  predicate Holding(was: System, now: System, thread: ThreadId, child: Generation, log: LogId, model: ModelRef) {
    && child == was.nextGeneration
    && thread in now.threads && now.threads[thread] == Entry(log, Some(child), model)
    && child in now.sups && now.sups[child] == Supervised(thread, log, [], Live)
  }

  /** A spawned child is registered exactly when nothing turns it away: into a respawn's own empty slot
      and log, or as a first child under a log of its own. */
  lemma SpawnMeans(s: System, thread: ThreadId, respawn: bool, opener: OpenerId, spawn: Option<ModelRef>,
                   reaping: seq<Move>)
    ensures var (after, trouble) := SpawnRun(s, thread, respawn, opener, spawn, reaping);
            && (trouble == Some(SpawnFailed) <==> spawn.None?)
            && (trouble == Some(ShutDown) <==> spawn.Some? && s.shutdown)
            && (trouble == Some(ThreadNotFound) <==> spawn.Some? && !s.shutdown && respawn && thread !in s.threads)
            && (trouble == Some(OpenedConcurrently) <==>
                  spawn.Some? && !s.shutdown && (if respawn then Lives(s, thread) else thread in s.threads))
            && (trouble.None? <==>
                  spawn.Some? && !s.shutdown && (if respawn then Empty(s, thread) else thread !in s.threads))
            && (trouble.None? ==>
                  && Holding(s, after, thread, s.nextGeneration, if respawn then s.threads[thread].log else s.nextLog,
                             spawn.value)
                  && opener in after.openers && after.openers[opener] == Registered(s.nextGeneration))
            && (trouble.Some? && spawn.Some? ==> opener in after.openers && after.openers[opener] == Discarded)
  {
    hide Run;
  }

  /** What each answer means, and when a reaped thread is respawned. */
  lemma EnsureMeans(s: System, thread: ThreadId, opener: OpenerId, trip: Trip)
    ensures var (after, r) := EnsureRun(s, thread, opener, trip);
            && (r.AlreadyLive? <==>
                  Lives(s, thread) || (thread in At(s, trip, 1).threads && Lives(At(s, trip, 2), thread)))
            && (r.AlreadyLive? ==> Lives(after, thread) && r.model == after.threads[thread].model)
            && (r == NoRespawn(ThreadNotFound) ==> exists k: nat | k <= 5 :: thread !in At(s, trip, k).threads)
            && (r == NoRespawn(ShutDown) ==> exists k: nat | k <= 5 :: At(s, trip, k).shutdown)
            && (r == NoRespawn(OpenedConcurrently) ==> Lives(At(s, trip, 5), thread))
            && (r == NoRespawn(SpawnFailed) ==> trip.spawn.None?)
            && (r.NoRespawn? ==> r.why in {ThreadNotFound, ShutDown, OpenedConcurrently, SpawnFailed})
            && (r.Respawned? ==>
                  && Empty(At(s, trip, 5), thread) && trip.spawn.Some?
                  && Holding(At(s, trip, 5), after, thread, r.child, At(s, trip, 5).threads[thread].log,
                             trip.spawn.value))
    ensures (forall k: nat | k <= 5 :: Empty(At(s, trip, k), thread) && !At(s, trip, k).shutdown) && trip.spawn.Some? ==>
              EnsureRun(s, thread, opener, trip).1 == Respawned(At(s, trip, 5).nextGeneration)
  {
    assert At(s, trip, 0) == s;
    SpawnMeans(At(s, trip, 5), thread, true, opener, trip.spawn, Gap(trip, 5));
    hide At, SpawnRun;
  }

  /** The child that takes the command is the one its entry holds, the command the last of its queue. */
  predicate Queued(was: System, now: System, thread: ThreadId, c: Command, child: Generation) {
    && Lives(was, thread) && was.threads[thread].child.value == child && child in was.sups && child in now.sups
    && now.sups[child].queue == was.sups[child].queue + [c]
    && now.sent == was.sent + multiset{c.reply}
  }

  predicate HasRoom(s: System, thread: ThreadId) {
    && Lives(s, thread) && s.threads[thread].child.value in s.sups
    && var child := s.sups[s.threads[thread].child.value];
       !child.stage.Gone? && |child.queue| < COMMAND_QUEUE
  }

  /** The system when an attempt looks its child up, the child ensured. */
  function Ready(s: System, thread: ThreadId, opener: OpenerId, trip: Trip): System {
    Run(EnsureRun(s, thread, opener, trip).0, Gap(trip, 6))
  }

  /** Exactly when an attempt ends as it does. */
  lemma TripMeans(s: System, thread: ThreadId, c: Command, opener: OpenerId, trip: Trip)
    ensures var (after, outcome) := TripRun(s, thread, c, opener, trip);
            var ensured := EnsureRun(s, thread, opener, trip).1;
            var ready := Ready(s, thread, opener, trip);
            && (ensured.NoRespawn? ==> outcome == Some(NotSent(ensured.why)))
            && (!ensured.NoRespawn? ==>
                  && (outcome == Some(NotSent(ThreadNotFound)) <==> thread !in ready.threads)
                  && (outcome.None? <==> Empty(ready, thread))
                  && (outcome == Some(NotSent(Declined)) <==> Lives(ready, thread) && trip.declined)
                  && (outcome == Some(NotSent(QueueTrouble)) <==>
                        Lives(ready, thread) && !trip.declined && !HasRoom(ready, thread))
                  && (outcome.Some? && outcome.value.Enqueued? <==> HasRoom(ready, thread) && !trip.declined)
                  && (outcome.Some? && outcome.value.NotSent? ==>
                        outcome.value.why in {ThreadNotFound, Declined, QueueTrouble})
                  && (outcome.Some? && outcome.value.Enqueued? ==>
                        Queued(ready, after, thread, c, outcome.value.child)))
  {
    hide Run, EnsureRun;
  }

  /** A command is sent exactly when an attempt's child takes it; it is given up as reaped twice exactly
      when both attempts found the slot empty again. */
  lemma EnqueueMeans(s: System, thread: ThreadId, c: Command, first: OpenerId, second: OpenerId, one: Trip, two: Trip)
    ensures var (after, r) := EnqueueRun(s, thread, c, first, second, one, two);
            var (mid, once) := TripRun(s, thread, c, first, one);
            var twice := TripRun(mid, thread, c, second, two).1;
            && (r.Enqueued? <==>
                  (once.Some? && once.value.Enqueued?) || (once.None? && twice.Some? && twice.value.Enqueued?))
            && (r == NotSent(ReapedTwice) <==> once.None? && twice.None?)
            && (once.Some? ==> r == once.value)
  {
    TripMeans(s, thread, c, first, one);
    EnsureMeans(s, thread, first, one);
    var mid := TripRun(s, thread, c, first, one).0;
    TripMeans(mid, thread, c, second, two);
    EnsureMeans(mid, thread, second, two);
    hide TripRun, EnsureRun, Ready, Queued, HasRoom, Lives, Empty, At, Holding;
  }

  lemma {:induction false} StillThere(s: System, trip: Trip, k: nat)
    requires trip.awaits == []
    ensures At(s, trip, k) == s
  {
    if k > 0 {
      StillThere(s, trip, k - 1);
    }
  }

  /** A reaped thread, no shutdown, nobody in the way: its child is respawned and takes the command. */
  lemma AloneItIsSent(s: System, thread: ThreadId, c: Command, first: OpenerId, second: OpenerId, one: Trip, two: Trip)
    requires Empty(s, thread) && !s.shutdown
    requires one.awaits == [] && one.spawn.Some? && !one.declined
    ensures var (after, r) := EnqueueRun(s, thread, c, first, second, one, two);
            && r == Enqueued(s.nextGeneration)
            && thread in after.threads
            && after.threads[thread] == Entry(s.threads[thread].log, Some(s.nextGeneration), one.spawn.value)
            && s.nextGeneration in after.sups
            && after.sups[s.nextGeneration] == Supervised(thread, s.threads[thread].log, [c], Live)
  {
    forall k: nat ensures At(s, one, k) == s {
      StillThere(s, one, k);
    }
    EnsureMeans(s, thread, first, one);
    TripMeans(s, thread, c, first, one);
    hide At, EnsureRun;
    assert [] + [c] == [c];
  }

  /** An absent thread, no shutdown, nobody in the way: it is opened with a first child of its own log. */
  lemma AloneItIsOpened(s: System, thread: ThreadId, opener: OpenerId, trip: Trip, rest: Trip)
    requires thread !in s.threads && !s.shutdown && trip.awaits == [] && trip.spawn.Some?
    ensures var (after, trouble) := OpenRun(s, thread, opener, trip, rest);
            trouble.None? && Holding(s, after, thread, s.nextGeneration, s.nextLog, trip.spawn.value)
  {
    StillThere(s, trip, 1);
    StillThere(s, trip, 2);
    SpawnMeans(s, thread, false, opener, trip.spawn, Gap(trip, 2));
    hide At, SpawnRun;
  }

  /** What an open's failure means. */
  lemma OpenMeans(s: System, thread: ThreadId, opener: OpenerId, trip: Trip, rest: Trip)
    ensures var (after, trouble) := OpenRun(s, thread, opener, trip, rest);
            var seen := At(s, trip, 1);
            && (s.shutdown ==> trouble == Some(ShutDown))
            && (!s.shutdown && Lives(seen, thread) ==> trouble.None? && after == seen)
            && (!s.shutdown && Empty(seen, thread) ==>
                  var r := EnsureRun(Run(seen, Gap(trip, 1)), thread, opener, rest).1;
                  if r.NoRespawn? then trouble == Some(r.why) else trouble.None?)
            && (!s.shutdown && thread !in seen.threads ==>
                  var late := At(s, trip, 2);
                  && (trouble.None? <==> trip.spawn.Some? && !late.shutdown && thread !in late.threads)
                  && (trouble.None? ==>
                        Holding(late, after, thread, late.nextGeneration, late.nextLog, trip.spawn.value)))
  {
    SpawnMeans(At(s, trip, 2), thread, false, opener, trip.spawn, Gap(trip, 2));
    hide At, SpawnRun, EnsureRun;
  }

  // ---- Stops of sub-agents -------------------------------------------------------------------

  predicate RouteHasRoom(s: System, route: ThreadId) {
    && route in s.routes && s.routes[route].child.Some? && s.routes[route].child.value in s.sups
    && var child := s.sups[s.routes[route].child.value];
       !child.stage.Gone? && |child.queue| < COMMAND_QUEUE
  }

  /** A stop goes to the queue of the child that carries the route, exactly when that child can take it. */
  lemma InterruptMeans(s: System, route: ThreadId, c: Command)
    ensures var (after, how) := InterruptRoute(s, route, c);
            && (how == Sent <==> RouteHasRoom(s, route))
            && (how == NoThread <==> route !in s.routes)
            && (how == NoChild <==> route in s.routes && s.routes[route].child.None?)
            && (how == Sent ==>
                  var g := s.routes[route].child.value;
                  && g in after.sups && after.sups[g].queue == s.sups[g].queue + [c]
                  && after.sent == s.sent + multiset{c.reply})
            && (how != Sent ==> after == s)
  {
  }

  /** A route its supervisor publishes leads to that supervisor's child. */
  lemma PublishedRouteLeads(s: System, g: Generation, route: ThreadId, c: Command)
    requires g in s.sups && !s.sups[g].stage.Gone? && |s.sups[g].queue| < COMMAND_QUEUE
    ensures var (after, how) := InterruptRoute(PublishRoute(s, g, route), route, c);
            how == Sent && g in after.sups && after.sups[g].queue == s.sups[g].queue + [c]
  {
  }
}
