/** The facade's calls: each lock-held section updates the shared maps in place, and at each await
    the other tasks move. */
module Facade {
  import opened Protocol
  import opened Harness
  import opened HarnessSafety
  import opened HarnessGuarantees
  import opened Calls

  /** A move of another task: it neither sends this call's command nor settles its openers. */
  predicate Foreign(m: Move, reply: Token, mine: set<OpenerId>) {
    match m
    case Sends(_, command) => command.reply != reply
    case StopsRoute(_, command) => command.reply != reply
    case SendsStop(_, command) => command.reply != reply
    case Handshaken(other, _, _, _) => other !in mine
    case Registers(other) => other !in mine
    case Discards(other) => other !in mine
    case _ => true
  }

  /** Nothing that happens at the awaits of a call is the call's own doing. */
  predicate ByOthers(trip: Trip, reply: Token, mine: set<OpenerId>) {
    forall moves <- trip.awaits :: forall m <- moves :: Foreign(m, reply, mine)
  }

  predicate SameOpeners(was: map<OpenerId, Opener>, now: map<OpenerId, Opener>, mine: set<OpenerId>) {
    forall o <- mine :: (o in now <==> o in was) && (o in was ==> now[o] == was[o])
  }

  /** What this call's own sections leave behind is undisturbed. */
  predicate Undisturbed(was: System, now: System, reply: Token, mine: set<OpenerId>) {
    && Sound(now)
    && now.sent[reply] == was.sent[reply]
    && SameOpeners(was.openers, now.openers, mine)
    && (was.shutdown ==> now.shutdown)
    && (was.drained ==> now.drained)
    && (forall g <- was.sups :: g in now.sups)
  }

  lemma SendNowForeign(s: System, g: Generation, c: Command, reply: Token)
    requires g in s.sups && c.reply != reply
    ensures SendNow(s, g, c).0.sent[reply] == s.sent[reply]
    ensures SendNow(s, g, c).0.openers == s.openers
  {
  }

  lemma TakeSendsNothing(s: System, g: Generation, model: ModelRef)
    requires g in s.sups
    ensures Take(s, g, model).sent == s.sent && Take(s, g, model).openers == s.openers
  {
    hide Holds;
  }

  lemma LeavingSendsNothing(s: System, g: Generation)
    requires g in s.sups
    ensures LeaveEntry(s, g).sent == s.sent && LeaveEntry(s, g).openers == s.openers
  {
    hide Holds;
  }

  lemma SyncSendsNothing(s: System, g: Generation, model: ModelRef)
    requires g in s.sups
    ensures SyncModel(s, g, model).sent == s.sent && SyncModel(s, g, model).openers == s.openers
  {
    hide Holds;
  }

  lemma OwnMovesSendNothing(s: System, m: Move)
    requires CanMove(s, m) && OwnMove(m)
    ensures Moved(s, m).sent == s.sent && Moved(s, m).openers == s.openers
  {
    hide CoolRoutes, Holds, Take, LeaveEntry, SyncModel;
    match m
    case Takes(g, model) => TakeSendsNothing(s, g, model);
    case Leaves(g) => LeavingSendsNothing(s, g);
    case Syncs(g, model) => SyncSendsNothing(s, g, model);
    case PublishesRoute(_, _) =>
    case Cools(_) =>
    case Receives(_) =>
    case Halts(_) =>
    case Exits(_) =>
    case Drops(_) =>
    case ClosesLog(_) =>
  }

  lemma ForeignMoveSendsNothing(s: System, m: Move, reply: Token, mine: set<OpenerId>)
    requires CanMove(s, m) && Foreign(m, reply, mine) && !OwnMove(m)
    ensures var now := Moved(s, m);
            && now.sent[reply] == s.sent[reply]
            && SameOpeners(s.openers, now.openers, mine)
  {
    hide SendNow, WasReaped;
    match m
    case Sends(thread, c) =>
      if thread in s.threads && s.threads[thread].child.Some? && s.threads[thread].child.value in s.sups {
        SendNowForeign(s, s.threads[thread].child.value, c, reply);
      }
    case StopsRoute(thread, c) =>
      if thread in s.routes && s.routes[thread].child.Some? && s.routes[thread].child.value in s.sups {
        SendNowForeign(s, s.routes[thread].child.value, c, reply);
      }
    case SendsStop(g, c) => SendNowForeign(s, g, c, reply);
    case Handshaken(_, _, _, _) =>
    case Registers(_) =>
    case Discards(_) =>
    case Claims(_) =>
    case Forgets(_) =>
    case ForgetsRoute(_) =>
    case Aborts(_) =>
    case RaisesShutdown =>
    case DrainsThreads =>
    case DrainsRoutes =>
  }

  lemma ForeignMoveDisturbsNothing(s: System, m: Move, reply: Token, mine: set<OpenerId>)
    requires Sound(s) && Foreign(m, reply, mine)
    ensures Undisturbed(s, Next(s, m), reply, mine)
  {
    hide Sound, Foreign, CanMove, Moved, OwnMove, SameOpeners, Undisturbed, Onward;
    NextIsSound(s, m);
    NextIsOnward(s, m);
    SameAreSame(s.openers, mine);
    if CanMove(s, m) {
      if OwnMove(m) {
        OwnMovesSendNothing(s, m);
      } else {
        ForeignMoveSendsNothing(s, m, reply, mine);
      }
    }
    OnwardUndisturbed(s, Next(s, m), reply, mine);
  }

  lemma SameAreSame(openers: map<OpenerId, Opener>, mine: set<OpenerId>)
    ensures SameOpeners(openers, openers, mine)
  {
  }

  lemma OnwardUndisturbed(was: System, now: System, reply: Token, mine: set<OpenerId>)
    requires Sound(now) && Onward(was, now) && now.sent[reply] == was.sent[reply]
    requires SameOpeners(was.openers, now.openers, mine)
    ensures Undisturbed(was, now, reply, mine)
  {
    hide Sound, SameOpeners;
  }

  lemma {:induction false} OthersDisturbNothing(s: System, moves: seq<Move>, reply: Token, mine: set<OpenerId>)
    requires Sound(s) && forall m <- moves :: Foreign(m, reply, mine)
    ensures Undisturbed(s, Run(s, moves), reply, mine)
    decreases |moves|
  {
    hide Sound, Next, Foreign;
    if moves != [] {
      ForeignMoveDisturbsNothing(s, moves[0], reply, mine);
      OthersDisturbNothing(Next(s, moves[0]), moves[1..], reply, mine);
    }
  }

  lemma RegisterSendsNothing(s: System, opener: OpenerId)
    requires opener in s.openers && s.openers[opener].Waiting?
    ensures var after := Register(s, opener);
            && after.sent == s.sent
            && opener in after.openers
            && after.openers == s.openers[opener := after.openers[opener]]
  {
  }

  lemma RaisingIsSound(s: System)
    requires Sound(s)
    ensures Sound(s.(shutdown := true))
  {
    hide RoutesOk, WritersOk, SlotsOk, NumbersOk, ReapsOk, HandlesOk, HoldersOk, LogsOk, PlacedOk, ByOthers;
  }

  lemma DrainingDrains(s: System)
    ensures Harness.DrainThreads(s).drained
  {
  }

  /** Every child ever registered is handed to a stop, was reaped, or is past its own exit. */
  predicate AllHandedOver(s: System) {
    forall g <- s.sups :: g in s.handles || PastItsEntry(s.sups[g].stage)
  }

  lemma EveryChildIsPlaced(s: System)
    requires Sound(s) && s.drained
    ensures s.shutdown && s.threads == map[]
    ensures AllHandedOver(s)
  {
    hide ReapsOk, RoutesOk, HandlesOk, NumbersOk, HoldersOk, OpenersOk, ByOthers, LogsOk, WritersOk, SlotsOk;
  }

  /** What an enqueue sends, and to whom. */
  lemma EnqueueFacts(s: System, thread: ThreadId, c: Command)
    requires Sound(s)
    ensures var (after, how) := Enqueue(s, thread, c);
            && after.openers == s.openers
            && after.threads == s.threads
            && after.sent == (if how == Sent then s.sent + multiset{c.reply} else s.sent)
            && (how == Sent ==>
                  && thread in s.threads && s.threads[thread].child.Some?
                  && s.threads[thread].child.value in after.sups
                  && !PastItsEntry(after.sups[s.threads[thread].child.value].stage))
  {
    hide Sound, PastItsEntry;
    if thread in s.threads && s.threads[thread].child.Some? {
      HeldOnce(s, thread, s.threads[thread].child.value);
    }
  }

  lemma GapIsForeign(trip: Trip, k: nat, reply: Token, mine: set<OpenerId>)
    requires ByOthers(trip, reply, mine)
    ensures forall m <- Gap(trip, k) :: Foreign(m, reply, mine)
  {
    hide Foreign;
    if k < |trip.awaits| {
      assert trip.awaits[k] in trip.awaits;
    }
  }

  lemma AtFirst(s: System, trip: Trip)
    ensures At(s, trip, 0) == s
  {
  }

  lemma AtNext(s: System, trip: Trip, k: nat)
    ensures At(s, trip, k + 1) == Run(At(s, trip, k), Gap(trip, k))
  {
    hide Run;
  }

  lemma SameRefusal(s: System, openers: map<OpenerId, Opener>, thread: ThreadId, respawn: bool)
    ensures Refusal(s.(openers := openers), thread, respawn) == Refusal(s, thread, respawn)
  {
  }

  class Facade {
    var threads: map<ThreadId, Entry>
    var routes: map<ThreadId, Route>
    var openLogs: set<LogId>
    var generations: Generation
    var shutdown: bool
    // The children, and what the calls in flight hold of them.
    var children: map<Generation, Supervised>
    var openers: map<OpenerId, Opener>
    var handles: set<Generation>
    var logs: LogId
    var sent: multiset<Token>
    var drained: bool
    var refusedIdle: bool

    constructor ()
      ensures Abs() == EMPTY
    {
      threads, routes, openLogs, generations, shutdown := map[], map[], {}, 0, false;
      children, openers, handles, logs, sent, drained, refusedIdle := map[], map[], {}, 0, multiset{}, false, false;
    }

    function Abs(): System
      reads this
    {
      System(threads, routes, children, openLogs, logs, generations, openers, handles, sent, shutdown, drained,
             refusedIdle)
    }

    /** The shared maps as other tasks left them. */
    method AdoptMaps(now: System)
      modifies this`threads, this`routes, this`openLogs, this`children, this`openers, this`handles
      ensures threads == now.threads && routes == now.routes && openLogs == now.openLogs
      ensures children == now.sups && openers == now.openers && handles == now.handles
    {
      threads, routes, openLogs := now.threads, now.routes, now.openLogs;
      children, openers, handles := now.sups, now.openers, now.handles;
    }

    method Adopt(now: System)
      modifies this
      ensures Abs() == now
    {
      AdoptMaps(now);
      generations, shutdown, logs := now.nextGeneration, now.shutdown, now.nextLog;
      sent, drained, refusedIdle := now.sent, now.drained, now.refusedIdle;
    }

    /** The other tasks take their steps. */
    method Others(moves: seq<Move>, reply: Token, mine: set<OpenerId>)
      requires Sound(Abs()) && forall m <- moves :: Foreign(m, reply, mine)
      modifies this
      ensures Abs() == Run(old(Abs()), moves)
      ensures Undisturbed(old(Abs()), Abs(), reply, mine)
    {
      OthersDisturbNothing(Abs(), moves, reply, mine);
      hide Run, Sound, Foreign, Undisturbed;
      Adopt(Run(Abs(), moves));
    }

    /** `try_send` on a child's queue. */
    method SendNow(g: Generation, c: Command) returns (how: Enqueued)
      requires g in children
      modifies this`children, this`sent
      ensures (Abs(), how) == Harness.SendNow(old(Abs()), g, c)
    {
      var child := children[g];
      if child.stage.Gone? {
        how := QueueClosed;
      } else if |child.queue| >= COMMAND_QUEUE {
        how := QueueFull;
      } else {
        children := children[g := child.(queue := child.queue + [c])];
        sent := sent + multiset{c.reply};
        how := Sent;
      }
    }

    /** Look the thread's live child up and enqueue a command, in one section of `threads`. */
    method Enqueue(thread: ThreadId, c: Command) returns (how: Enqueued)
      modifies this
      ensures (Abs(), how) == Harness.Enqueue(old(Abs()), thread, c)
    {
      if thread !in threads {
        return NoThread;
      }
      var child := threads[thread].child;
      match child
      case None => how := NoChild;
      case Some(g) =>
        if g in children {
          how := SendNow(g, c);
        } else {
          how := QueueClosed;
        }
    }

    /** Stop a sub-agent through the child that carries its route, in one section of `routes`. */
    method InterruptRoute(thread: ThreadId, c: Command) returns (how: Enqueued)
      modifies this
      ensures (Abs(), how) == Harness.InterruptRoute(old(Abs()), thread, c)
    {
      if thread !in routes {
        return NoThread;
      }
      var child := routes[thread].child;
      match child
      case None => how := NoChild;
      case Some(g) =>
        if g in children {
          how := SendNow(g, c);
        } else {
          how := QueueClosed;
        }
    }

    /** The new child's supervisor starts, and its entry holds it. */
    method Spawn(thread: ThreadId, log: LogId, model: ModelRef) returns (g: Generation)
      requires thread in threads ==> threads[thread].log == log
      modifies this`generations, this`children, this`threads
      ensures g == old(generations) && generations == g + 1
      ensures children == old(children)[g := Supervised(thread, log, [], Live)]
      ensures threads == old(threads)[thread := Entry(log, Some(g), model)]
    {
      g := generations;
      generations := g + 1;
      children := children[g := Supervised(thread, log, [], Live)];
      if thread in threads {
        threads := threads[thread := threads[thread].(child := Some(g), model := model)];
      } else {
        threads := threads[thread := Entry(log, Some(g), model)];
      }
    }

    /** Register a handshaken child: a new entry, or an empty slot of an old one. */
    method RegisterChild(opener: OpenerId) returns (refused: Option<Trouble>)
      requires opener in openers && openers[opener].Waiting?
      modifies this
      ensures Abs() == Register(old(Abs()), opener)
      ensures opener in openers
      ensures refused == Refusal(old(Abs()), old(openers)[opener].thread, old(openers)[opener].respawn)
      ensures refused.None? <==> openers[opener].Registered?
      ensures refused.None? ==> openers[opener] == Registered(old(generations))
      ensures refused.Some? ==> openers[opener].TurnedAway?
    {
      var Waiting(thread, respawn, model) := openers[opener];
      refused := None;
      if shutdown {
        refused := Some(ShutDown);
      } else if thread !in threads {
        if respawn {
          refused := Some(ThreadNotFound);
        }
      } else if threads[thread].child.Some? || !respawn {
        refused := Some(OpenedConcurrently);
      }
      if refused.Some? {
        openers := openers[opener := TurnedAway];
        return;
      }
      var log: LogId;
      if thread in threads {
        log := threads[thread].log;
      } else {
        log := logs;
        logs, openLogs := logs + 1, openLogs + {log};
      }
      var g := Spawn(thread, log, model);
      openers := openers[opener := Registered(g)];
    }

    method LiveModel(thread: ThreadId) returns (model: Option<ModelRef>)
      ensures model.Some? <==> thread in threads && threads[thread].child.Some?
      ensures model.Some? ==> model.value == threads[thread].model
    {
      if thread in threads && threads[thread].child.Some? {
        model := Some(threads[thread].model);
      } else {
        model := None;
      }
    }

    /** A handshaken child is registered, or reaped if it is refused. */
    method SpawnAndRegister(thread: ThreadId, respawn: bool, opener: OpenerId, spawn: Option<ModelRef>,
                            reaping: seq<Move>, reply: Token, mine: set<OpenerId>)
      returns (child: Option<Generation>, trouble: Option<Trouble>)
      requires Sound(Abs()) && opener !in openers && opener in mine
      requires forall m <- reaping :: Foreign(m, reply, mine)
      modifies this
      ensures (Abs(), trouble) == SpawnRun(old(Abs()), thread, respawn, opener, spawn, reaping)
      ensures Sound(Abs()) && sent[reply] == old(sent)[reply]
      ensures SameOpeners(old(openers), openers, mine - {opener})
      ensures child == if trouble.None? then Some(old(generations)) else None
      ensures trouble.None? ==> opener in openers && openers[opener] == Registered(old(generations))
      ensures trouble.Some? ==> (opener in openers ==> openers[opener].Discarded?)
      ensures (old(shutdown) ==> shutdown) && (old(drained) ==> drained)
    {
      hide Sound, Register, Run, Refusal;
      if spawn.None? {
        return None, Some(SpawnFailed);
      }
      NextIsSound(Abs(), Handshaken(opener, thread, respawn, spawn.value));
      openers := openers[opener := Waiting(thread, respawn, spawn.value)];
      SameRefusal(old(Abs()), openers, thread, respawn);
      RegisterIsSound(Abs(), opener);
      RegisterGoesOnward(Abs(), opener);
      RegisterSendsNothing(Abs(), opener);
      trouble := RegisterChild(opener);
      if trouble.None? {
        child := Some(openers[opener].child);
      } else {
        child := None;
        Reap(opener, reaping, reply, mine);
      }
    }

    /** Reap the child of a call that was turned away. */
    method Reap(opener: OpenerId, moves: seq<Move>, reply: Token, mine: set<OpenerId>)
      requires Sound(Abs()) && opener in mine && opener in openers && openers[opener].TurnedAway?
      requires forall m <- moves :: Foreign(m, reply, mine)
      modifies this
      ensures var reaped := Run(old(Abs()), moves);
              Abs() == reaped.(openers := reaped.openers[opener := Discarded])
      ensures Sound(Abs()) && sent[reply] == old(sent)[reply]
      ensures SameOpeners(old(openers), openers, mine - {opener})
      ensures opener in openers && openers[opener].Discarded?
      ensures (old(shutdown) ==> shutdown) && (old(drained) ==> drained)
    {
      hide Sound, Run;
      Others(moves, reply, mine);
      NextIsSound(Abs(), Discards(opener));
      openers := openers[opener := Discarded];
    }

    /** The other tasks move at one await of an attempt. */
    method Await(trip: Trip, k: nat, reply: Token, mine: set<OpenerId>)
      requires Sound(Abs()) && ByOthers(trip, reply, mine)
      modifies this
      ensures Abs() == Run(old(Abs()), Gap(trip, k))
      ensures Undisturbed(old(Abs()), Abs(), reply, mine)
    {
      hide Sound, Run, Undisturbed, Foreign, ByOthers;
      GapIsForeign(trip, k, reply, mine);
      Others(Gap(trip, k), reply, mine);
    }

    /** Make sure the thread has a live child, respawning a reaped one. */
    method EnsureChild(thread: ThreadId, opener: OpenerId, trip: Trip, reply: Token, mine: set<OpenerId>)
      returns (r: Respawn)
      requires Sound(Abs()) && opener !in openers && opener in mine && ByOthers(trip, reply, mine)
      modifies this
      ensures (Abs(), r) == EnsureRun(old(Abs()), thread, opener, trip)
      ensures Sound(Abs()) && sent[reply] == old(sent)[reply]
      ensures SameOpeners(old(openers), openers, mine - {opener})
      ensures r.Respawned? <==> opener in openers && openers[opener].Registered?
      ensures opener in openers ==> openers[opener].Registered? || openers[opener].Discarded?
    {
      hide Sound, Run, ByOthers, SpawnRun, At, Gap;
      ghost var s := Abs();
      AtFirst(s, trip);
      var live := LiveModel(thread);
      if live.Some? {
        return AlreadyLive(live.value);
      }
      AtNext(s, trip, 0);
      Await(trip, 0, reply, mine);
      if thread !in threads {
        return NoRespawn(ThreadNotFound);
      }
      // The respawn gate: another call's respawn may finish first.
      AtNext(s, trip, 1);
      Await(trip, 1, reply, mine);
      live := LiveModel(thread);
      if live.Some? {
        return AlreadyLive(live.value);
      }
      AtNext(s, trip, 2);
      Await(trip, 2, reply, mine);
      if shutdown {
        return NoRespawn(ShutDown);
      }
      AtNext(s, trip, 3);
      Await(trip, 3, reply, mine);
      if thread !in threads {
        return NoRespawn(ThreadNotFound);
      }
      // The child is spawned, and its handshake awaited.
      AtNext(s, trip, 4);
      Await(trip, 4, reply, mine);
      GapIsForeign(trip, 5, reply, mine);
      var child, trouble := SpawnAndRegister(thread, true, opener, trip.spawn, Gap(trip, 5), reply, mine);
      r := if trouble.None? then Respawned(child.value) else NoRespawn(trouble.value);
    }

    /** One attempt to send a command to a live child. */
    method Attempt(thread: ThreadId, c: Command, opener: OpenerId, trip: Trip, mine: set<OpenerId>)
      returns (r: Option<Sending>)
      requires Sound(Abs()) && opener !in openers && opener in mine && ByOthers(trip, c.reply, mine)
      modifies this
      ensures (Abs(), r) == TripRun(old(Abs()), thread, c, opener, trip)
      ensures Sound(Abs()) && SameOpeners(old(openers), openers, mine - {opener})
      ensures sent[c.reply] == old(sent)[c.reply] + if r.Some? && r.value.Enqueued? then 1 else 0
      ensures r.Some? && r.value.Enqueued? ==>
                r.value.child in children && !PastItsEntry(children[r.value.child].stage)
    {
      hide Sound, Harness.Enqueue, EnsureRun, Run, ByOthers;
      var ensured := EnsureChild(thread, opener, trip, c.reply, mine);
      if ensured.NoRespawn? {
        return Some(NotSent(ensured.why));
      }
      Await(trip, 6, c.reply, mine);
      // The command may be refused against the child that is live now.
      if trip.declined && thread in threads && threads[thread].child.Some? {
        return Some(NotSent(Declined));
      }
      EnqueueIsSound(Abs(), thread, c);
      EnqueueFacts(Abs(), thread, c);
      var how := Enqueue(thread, c);
      match how
      case Sent => r := Some(Enqueued(threads[thread].child.value));
      case NoThread => r := Some(NotSent(ThreadNotFound));
      case QueueFull => r := Some(NotSent(QueueTrouble));
      case QueueClosed => r := Some(NotSent(QueueTrouble));
      case NoChild => r := None;
    }

    /** Enqueue a command, respawning a reaped child first; a child reaped in between was sent
        nothing, and is respawned once more. */
    method EnqueueRespawning(thread: ThreadId, c: Command, first: OpenerId, second: OpenerId, one: Trip, two: Trip)
      returns (r: Sending)
      requires Sound(Abs()) && first != second && first !in openers && second !in openers
      requires ByOthers(one, c.reply, {first, second}) && ByOthers(two, c.reply, {first, second})
      modifies this
      ensures (Abs(), r) == EnqueueRun(old(Abs()), thread, c, first, second, one, two)
      ensures Sound(Abs())
      ensures sent[c.reply] == old(sent)[c.reply] + if r.Enqueued? then 1 else 0
      ensures r.Enqueued? ==> r.child in children && !PastItsEntry(children[r.child].stage)
    {
      hide Sound, TripRun, ByOthers;
      var mine := {first, second};
      ghost var s := Abs();
      var attempts := 0;
      while attempts < 2
        invariant 0 <= attempts <= 2
        invariant Sound(Abs()) && sent[c.reply] == old(sent)[c.reply]
        invariant attempts == 0 ==> Abs() == s && first !in openers
        invariant attempts == 1 ==> (Abs(), None) == TripRun(s, thread, c, first, one)
        invariant attempts <= 1 ==> second !in openers
        invariant attempts == 2 ==>
                    && TripRun(s, thread, c, first, one).1.None?
                    && (Abs(), None) == TripRun(TripRun(s, thread, c, first, one).0, thread, c, second, two)
      {
        var opener, trip := if attempts == 0 then first else second, if attempts == 0 then one else two;
        attempts := attempts + 1;
        var outcome := Attempt(thread, c, opener, trip, mine);
        if outcome.Some? {
          return outcome.value;
        }
      }
      r := NotSent(ReapedTwice);
    }

    /** Open a thread: its live child, a respawn of its reaped one, or a first child. */
    method OpenThread(thread: ThreadId, opener: OpenerId, trip: Trip, rest: Trip, reply: Token, mine: set<OpenerId>)
      returns (trouble: Option<Trouble>)
      requires Sound(Abs()) && opener !in openers && opener in mine
      requires ByOthers(trip, reply, mine) && ByOthers(rest, reply, mine)
      modifies this
      ensures (Abs(), trouble) == OpenRun(old(Abs()), thread, opener, trip, rest)
      ensures Sound(Abs()) && sent[reply] == old(sent)[reply]
      ensures opener in openers ==> openers[opener].Registered? || openers[opener].Discarded?
      ensures trouble.Some? ==> opener in openers ==> openers[opener].Discarded?
    {
      hide Sound, Run, ByOthers, SpawnRun, EnsureRun, At, Gap;
      ghost var s := Abs();
      AtFirst(s, trip);
      AtNext(s, trip, 0);
      AtNext(s, trip, 1);
      if shutdown {
        return Some(ShutDown);
      }
      Await(trip, 0, reply, mine);
      if thread in threads {
        var live := threads[thread].child.Some?;
        if live {
          return None;
        }
        Await(trip, 1, reply, mine);
        var r := EnsureChild(thread, opener, rest, reply, mine);
        return if r.NoRespawn? then Some(r.why) else None;
      }
      Await(trip, 1, reply, mine);
      GapIsForeign(trip, 2, reply, mine);
      var _, why := SpawnAndRegister(thread, false, opener, trip.spawn, Gap(trip, 2), reply, mine);
      trouble := why;
    }

    /** Forget a thread: a child it holds is handed to its stop, else its log closes. */
    method StopThread(thread: ThreadId)
      modifies this
      ensures Abs() == Next(old(Abs()), Forgets(thread))
    {
      if thread !in threads {
        return;
      }
      var entry := threads[thread];
      threads := threads - {thread};
      match entry.child
      case Some(g) => handles := handles + {g};
      case None => openLogs := openLogs - {entry.log};
    }

    /** Take every entry out: children are handed to their stops, the other logs close. */
    method DrainEntries()
      modifies this`threads, this`handles, this`openLogs
      ensures threads == map[]
      ensures handles == old(handles) + ChildrenOf(old(threads), old(threads).Keys)
      ensures openLogs == old(openLogs) - SlotLogs(old(threads), old(threads).Keys)
    {
      var entries := threads;
      threads := map[];
      var left := entries.Keys;
      while left != {}
        invariant left <= entries.Keys && threads == map[]
        invariant handles == old(handles) + ChildrenOf(entries, entries.Keys - left)
        invariant openLogs == old(openLogs) - SlotLogs(entries, entries.Keys - left)
        decreases |left|
      {
        var thread :| thread in left;
        left := left - {thread};
        match entries[thread].child
        case Some(g) => handles := handles + {g};
        case None => openLogs := openLogs - {entries[thread].log};
      }
      assert entries.Keys - left == entries.Keys;
    }

    method DrainThreads()
      modifies this`threads, this`handles, this`openLogs, this`drained
      ensures Abs() == Harness.DrainThreads(old(Abs()))
    {
      hide ChildrenOf, SlotLogs;
      DrainEntries();
      drained := true;
    }

    /** Shut down: raise the flag, drain the threads, wait for the stops, drain the routes. Nothing
        that races with it leaves a child in the map. */
    method Shutdown(trip: Trip, reply: Token, mine: set<OpenerId>)
      requires Sound(Abs()) && ByOthers(trip, reply, mine)
      modifies this
      ensures Sound(Abs()) && shutdown && drained && threads == map[]
      ensures AllHandedOver(Abs())
    {
      hide Sound, AllHandedOver, Harness.DrainThreads, Run, ByOthers;
      RaisingIsSound(Abs());
      shutdown := true;
      Await(trip, 0, reply, mine);
      DrainIsSound(Abs());
      DrainingDrains(Abs());
      DrainThreads();
      Await(trip, 1, reply, mine);
      RoutesCool(Abs(), map[]);
      routes := map[];
      EveryChildIsPlaced(Abs());
    }
  }
}
