/** What holds in every state that some interleaving of the facade and the supervisors reaches. */
module HarnessGuarantees {
  import opened Protocol
  import opened Harness
  import opened HarnessSafety

  ghost predicate Reachable(s: System) {
    exists moves: seq<Move> :: s == Run(EMPTY, moves)
  }

  lemma ReachableIsSound(s: System)
    requires Reachable(s)
    ensures Sound(s)
  {
    var moves: seq<Move> :| s == Run(EMPTY, moves);
    hide Sound, Run;
    EmptyIsSound();
    RunIsSound(EMPTY, moves);
  }

  lemma {:induction false} RunJoins(s: System, a: seq<Move>, b: seq<Move>)
    ensures Run(Run(s, a), b) == Run(s, a + b)
    decreases |a|
  {
    hide Next;
    if a == [] {
      assert a + b == b;
    } else {
      RunJoins(Next(s, a[0]), a[1..], b);
      assert (a + b)[0] == a[0] && (a + b)[1..] == a[1..] + b;
    }
  }

  lemma LaterIsReachable(s: System, moves: seq<Move>)
    requires Reachable(s)
    ensures Reachable(Run(s, moves))
  {
    var before: seq<Move> :| s == Run(EMPTY, before);
    hide Run;
    RunJoins(EMPTY, before, moves);
  }

  // ---- Reaps ---------------------------------------------------------------------------------

  /** Nothing is queued for a reaped child, and no entry, route or handle leads to it. */
  lemma ReapedIsUnreachable(s: System, g: Generation)
    requires Reachable(s) && g in s.sups && WasReaped(s.sups[g].stage)
    ensures s.sups[g].queue == [] && g !in s.handles
    ensures forall t <- s.threads :: s.threads[t].child != Some(g)
    ensures forall t <- s.routes :: s.routes[t].child != Some(g)
  {
    ReachableIsSound(s);
    hide Sound;
    StageFacts(s, g);
  }

  predicate OwnMove(m: Move) {
    || m.PublishesRoute? || m.Cools? || m.Takes? || m.Receives? || m.Halts? || m.Exits?
    || m.ClosesLog? || m.Leaves? || m.Drops? || m.Syncs?
  }

  /** What is never undone: shutdown, its drain, a child's thread and log, its reap. */
  predicate Onward(was: System, now: System) {
    && (was.shutdown ==> now.shutdown)
    && (was.drained ==> now.drained)
    && was.sent <= now.sent
    && forall g <- was.sups ::
         && g in now.sups
         && now.sups[g].thread == was.sups[g].thread
         && now.sups[g].log == was.sups[g].log
         && (WasReaped(was.sups[g].stage) ==> WasReaped(now.sups[g].stage))
  }

  predicate SameFlags(was: System, now: System) {
    now.shutdown == was.shutdown && now.drained == was.drained
  }

  lemma SameChildrenGoOnward(was: System, now: System)
    requires now.sups == was.sups && SameFlags(was, now) && now.sent == was.sent
    ensures Onward(was, now)
  {
  }

  lemma OneChildGoesOnward(was: System, now: System, g: Generation, sup: Supervised)
    requires g in was.sups && now.sups == was.sups[g := sup] && SameFlags(was, now) && was.sent <= now.sent
    requires sup.thread == was.sups[g].thread && sup.log == was.sups[g].log
    requires WasReaped(was.sups[g].stage) ==> WasReaped(sup.stage)
    ensures Onward(was, now)
  {
  }

  lemma SendNowGoesOnward(s: System, g: Generation, c: Command)
    requires g in s.sups
    ensures Onward(s, SendNow(s, g, c).0)
  {
    var after := SendNow(s, g, c).0;
    if after == s {
      SameChildrenGoOnward(s, s);
    } else {
      hide Onward;
      OneChildGoesOnward(s, after, g, after.sups[g]);
    }
  }

  lemma RegisterGoesOnward(s: System, opener: OpenerId)
    requires Sound(s) && opener in s.openers && s.openers[opener].Waiting?
    ensures Onward(s, Register(s, opener))
  {
    NewName(s);
    hide Sound, Held, Routed, WasReaped;
  }

  lemma TakeGoesOnward(s: System, g: Generation, model: ModelRef)
    requires Cooling(s, g)
    ensures Onward(s, Take(s, g, model))
  {
    hide Onward, Holds;
    var was := s.sups[g];
    if !Holds(s, g) {
      OneChildGoesOnward(s, Take(s, g, model), g, was.(stage := Halting));
    } else if was.queue != [] {
      OneChildGoesOnward(s, Take(s, g, model), g, was.(stage := Live, queue := was.queue[1..]));
    } else {
      OneChildGoesOnward(s, Take(s, g, model), g, was.(stage := Stage.Reaped));
    }
  }

  lemma StageGoesOnward(s: System, g: Generation, stage: Stage, now: System)
    requires g in s.sups && now.sups == Staged(s, g, stage).sups && SameFlags(s, now) && now.sent == s.sent
    requires WasReaped(s.sups[g].stage) ==> WasReaped(stage)
    ensures Onward(s, now)
  {
    hide Onward;
    OneChildGoesOnward(s, now, g, s.sups[g].(stage := stage));
  }

  lemma MoveIsOnward(s: System, m: Move)
    requires CanMove(s, m) && OwnMove(m)
    ensures Onward(s, Moved(s, m))
  {
    hide Onward, Take, CoolRoutes, Holds;
    match m
    case Takes(g, model) => TakeGoesOnward(s, g, model);
    case PublishesRoute(_, _) => SameChildrenGoOnward(s, Moved(s, m));
    case Syncs(_, _) => SameChildrenGoOnward(s, Moved(s, m));
    case Cools(g) => StageGoesOnward(s, g, Cooled, Cool(s, g));
    case Halts(g) => StageGoesOnward(s, g, Halting, Moved(s, m));
    case Exits(g) => StageGoesOnward(s, g, Exiting, BeginExit(s, g));
    case ClosesLog(g) => StageGoesOnward(s, g, LogShut, CloseLog(s, g));
    case Leaves(g) => StageGoesOnward(s, g, Departed, LeaveEntry(s, g));
    case Drops(g) => StageGoesOnward(s, g, Gone(WasReaped(s.sups[g].stage)), Moved(s, m));
    case Receives(g) =>
      OneChildGoesOnward(s, Receive(s, g), g, s.sups[g].(queue := s.sups[g].queue[1..]));
  }

  lemma NextIsOnward(s: System, m: Move)
    requires Sound(s)
    ensures Onward(s, Next(s, m))
  {
    hide Sound, Onward, Register, Take, Enqueue, InterruptRoute, SendNow, CoolRoutes, Holds;
    if !CanMove(s, m) {
      SameChildrenGoOnward(s, s);
    } else if OwnMove(m) {
      MoveIsOnward(s, m);
    } else {
      match m
      case Registers(opener) => RegisterGoesOnward(s, opener);
      case Sends(thread, command) => EnqueueGoesOnward(s, thread, command);
      case StopsRoute(thread, command) => InterruptGoesOnward(s, thread, command);
      case SendsStop(g, command) => SendNowGoesOnward(s, g, command);
      case Aborts(g) => StageGoesOnward(s, g, Gone(WasReaped(s.sups[g].stage)), Moved(s, m));
      case Handshaken(_, _, _, _) => SameChildrenGoOnward(s, Moved(s, m));
      case Discards(_) => SameChildrenGoOnward(s, Moved(s, m));
      case Claims(_) => SameChildrenGoOnward(s, Moved(s, m));
      case Forgets(_) => SameChildrenGoOnward(s, Moved(s, m));
      case ForgetsRoute(_) => SameChildrenGoOnward(s, Moved(s, m));
      case RaisesShutdown => FlagsGoOnward(s, Moved(s, m));
      case DrainsThreads => FlagsGoOnward(s, Moved(s, m));
      case DrainsRoutes => SameChildrenGoOnward(s, Moved(s, m));
    }
  }

  lemma FlagsGoOnward(was: System, now: System)
    requires now.sups == was.sups && now.sent == was.sent
    requires (was.shutdown ==> now.shutdown) && (was.drained ==> now.drained)
    ensures Onward(was, now)
  {
  }

  lemma EnqueueGoesOnward(s: System, thread: ThreadId, c: Command)
    ensures Onward(s, Enqueue(s, thread, c).0)
  {
    hide SendNow, Onward;
    SameChildrenGoOnward(s, s);
    if thread in s.threads && s.threads[thread].child.Some? && s.threads[thread].child.value in s.sups {
      SendNowGoesOnward(s, s.threads[thread].child.value, c);
    }
  }

  lemma InterruptGoesOnward(s: System, thread: ThreadId, c: Command)
    ensures Onward(s, InterruptRoute(s, thread, c).0)
  {
    hide SendNow, Onward;
    SameChildrenGoOnward(s, s);
    if thread in s.routes && s.routes[thread].child.Some? && s.routes[thread].child.value in s.sups {
      SendNowGoesOnward(s, s.routes[thread].child.value, c);
    }
  }

  /** No later step of any task puts a command in a reaped child's queue. */
  lemma {:induction false} NothingReachesAReapedChild(s: System, g: Generation, moves: seq<Move>)
    requires Reachable(s) && g in s.sups && WasReaped(s.sups[g].stage)
    ensures var later := Run(s, moves);
            g in later.sups && WasReaped(later.sups[g].stage) && later.sups[g].queue == []
    decreases |moves|
  {
    hide Sound, Next;
    ReachableIsSound(s);
    if moves == [] {
      ReapedIsUnreachable(s, g);
    } else {
      NextIsOnward(s, moves[0]);
      LaterIsReachable(s, [moves[0]]);
      assert Run(s, [moves[0]]) == Next(s, moves[0]) by {
        assert [moves[0]][1..] == [];
      }
      NothingReachesAReapedChild(Next(s, moves[0]), g, moves[1..]);
    }
  }

  /** No command is ever refused because its child was stopping for idleness. */
  lemma NoneRefusedIdle(s: System)
    requires Reachable(s)
    ensures !s.refusedIdle
  {
    ReachableIsSound(s);
  }

  /** A command that enters a queue is the last of a child that no reap has taken. */
  lemma SentReachesItsChild(s: System, thread: ThreadId, c: Command)
    requires Reachable(s) && Enqueue(s, thread, c).1 == Sent
    ensures var after := Enqueue(s, thread, c).0;
            && thread in s.threads && s.threads[thread].child.Some?
            && var g := s.threads[thread].child.value;
               && g in s.sups && after.sups[g].queue == s.sups[g].queue + [c]
               && !PastItsEntry(after.sups[g].stage)
  {
    ReachableIsSound(s);
    hide Sound, PastItsEntry;
    HeldOnce(s, thread, s.threads[thread].child.value);
  }

  /** A command sent while the child's reap is under way cancels the reap. */
  lemma SendCancelsTheReap(s: System, g: Generation, c: Command, model: ModelRef)
    requires Reachable(s) && Cooling(s, g) && Holds(s, g)
    requires Enqueue(s, s.sups[g].thread, c).1 == Sent
    ensures var sent := Enqueue(s, s.sups[g].thread, c).0;
            && CanMove(sent, Takes(g, model))
            && var after := Take(sent, g, model);
               after.sups[g].stage == Live && Holds(after, g) && after.threads == s.threads
  {
  }

  /** A command that comes after the child was taken is not sent, by its thread or by any route. */
  lemma TakenChildGetsNothing(s: System, g: Generation, c: Command, model: ModelRef, route: ThreadId)
    requires Reachable(s) && Cooling(s, g) && Holds(s, g) && s.sups[g].queue == []
    ensures var taken := Take(s, g, model);
            && g in taken.sups && WasReaped(taken.sups[g].stage)
            && Enqueue(taken, s.sups[g].thread, c) == (taken, NoChild)
            && InterruptRoute(taken, route, c).0.sups[g] == taken.sups[g]
  {
    ReachableIsSound(s);
    hide Sound, Reachable, SendNow, InterruptRoute;
    TakeIsSound(s, g, model);
    var taken := Take(s, g, model);
    StageFacts(taken, g);
    UnroutedIsNotReached(taken, g, route, c);
  }

  lemma UnroutedIsNotReached(s: System, g: Generation, route: ThreadId, c: Command)
    requires g in s.sups && !Routed(s.routes, g)
    ensures g in InterruptRoute(s, route, c).0.sups && InterruptRoute(s, route, c).0.sups[g] == s.sups[g]
  {
  }

  // ---- Logs and entries ----------------------------------------------------------------------

  /** Two supervisors of one log that were not reaped are one. */
  lemma OneWriterPerLog(s: System, g: Generation, h: Generation)
    requires Reachable(s) && g in s.sups && h in s.sups && s.sups[g].log == s.sups[h].log
    requires !WasReaped(s.sups[g].stage) && !WasReaped(s.sups[h].stage)
    ensures g == h
  {
    ReachableIsSound(s);
    hide ReapsOk, RoutesOk, HandlesOk, PlacedOk, NumbersOk, HoldersOk, OpenersOk, Apart, LogsOk, SlotsOk;
  }

  /** A thread without a child still streams: its log is open. */
  lemma EmptySlotHasAnOpenLog(s: System, thread: ThreadId)
    requires Reachable(s) && thread in s.threads && s.threads[thread].child.None?
    ensures s.threads[thread].log in s.openLogs
    ensures forall g <- s.sups :: s.sups[g].log == s.threads[thread].log ==> WasReaped(s.sups[g].stage)
  {
    ReachableIsSound(s);
    hide ReapsOk, RoutesOk, HandlesOk, PlacedOk, NumbersOk, HoldersOk, OpenersOk, Apart, LogsOk, WritersOk;
  }

  /** A respawned child writes to the log of its thread, open and left by reaped children only; a
      first child to a log no supervisor ever had. */
  lemma RegisteredChildInheritsSafely(s: System, opener: OpenerId)
    requires Reachable(s) && CanMove(s, Registers(opener))
    requires Register(s, opener).openers[opener].Registered?
    ensures var g := Register(s, opener).openers[opener].child;
            var child := Register(s, opener).sups[g];
            && g !in s.sups
            && child.log in Register(s, opener).openLogs
            && (forall h <- s.sups :: s.sups[h].log == child.log ==>
                  s.openers[opener].respawn && WasReaped(s.sups[h].stage))
            && (s.openers[opener].respawn ==>
                  && s.openers[opener].thread in s.threads
                  && child.log == s.threads[s.openers[opener].thread].log
                  && child.log in s.openLogs)
  {
    ReachableIsSound(s);
    hide Sound;
    NewName(s);
    NewLog(s);
    var thread := s.openers[opener].thread;
    if thread in s.threads && s.threads[thread].child.None? {
      EmptySlotHasAnOpenLog(s, thread);
    }
    hide Held, Routed, Reachable;
  }

  /** Every entry but the one that holds `g` is as it was. */
  predicate TouchesOnly(was: Threads, now: Threads, g: Generation) {
    forall t <- was :: was[t].child != Some(g) ==> t in now && now[t] == was[t]
  }

  lemma TakeTouchesOnlyItsEntry(s: System, g: Generation, model: ModelRef)
    requires g in s.sups
    ensures TouchesOnly(s.threads, Take(s, g, model).threads, g)
    ensures Take(s, g, model).openLogs == s.openLogs
  {
  }

  lemma LeavingTouchesOnlyItsEntry(s: System, g: Generation)
    requires g in s.sups
    ensures TouchesOnly(s.threads, LeaveEntry(s, g).threads, g)
    ensures LeaveEntry(s, g).openLogs == s.openLogs
  {
  }

  lemma SyncTouchesOnlyItsEntry(s: System, g: Generation, model: ModelRef)
    requires g in s.sups
    ensures TouchesOnly(s.threads, SyncModel(s, g, model).threads, g)
    ensures SyncModel(s, g, model).openLogs == s.openLogs
  {
  }

  lemma TouchesNothing(threads: Threads, g: Generation)
    ensures TouchesOnly(threads, threads, g)
  {
  }

  lemma OwnMovesTouchOnlyTheirs(s: System, m: Move)
    requires CanMove(s, m) && OwnMove(m)
    ensures TouchesOnly(s.threads, Moved(s, m).threads, m.g)
    ensures Moved(s, m).openLogs == if m.ClosesLog? then s.openLogs - {s.sups[m.g].log} else s.openLogs
  {
    hide CoolRoutes, Holds, Take, LeaveEntry, SyncModel, TouchesOnly;
    TouchesNothing(s.threads, m.g);
    match m
    case Takes(g, model) => TakeTouchesOnlyItsEntry(s, g, model);
    case Leaves(g) => LeavingTouchesOnlyItsEntry(s, g);
    case Syncs(g, model) => SyncTouchesOnlyItsEntry(s, g, model);
    case PublishesRoute(_, _) =>
    case Cools(_) =>
    case Receives(_) =>
    case Halts(_) =>
    case Exits(_) =>
    case Drops(_) =>
    case ClosesLog(_) =>
  }

  /** Whatever a supervisor does, an entry that does not hold its child stays as it was, and so does
      that entry's log. */
  lemma ForeignEntriesStay(s: System, m: Move, thread: ThreadId)
    requires Reachable(s) && OwnMove(m) && thread in s.threads && s.threads[thread].child != Some(m.g)
    ensures thread in Next(s, m).threads && Next(s, m).threads[thread] == s.threads[thread]
    ensures s.threads[thread].log in s.openLogs ==> s.threads[thread].log in Next(s, m).openLogs
  {
    ReachableIsSound(s);
    hide Sound, Reachable, Moved;
    if CanMove(s, m) {
      OwnMovesTouchOnlyTheirs(s, m);
      if m.ClosesLog? {
        OnlyWriter(s, m.g);
      }
    }
  }

  // ---- Shutdown ------------------------------------------------------------------------------

  /** After shutdown's drain the map of threads is empty for good. */
  lemma {:induction false} DrainedStaysEmpty(s: System, moves: seq<Move>)
    requires Reachable(s) && s.drained
    ensures Run(s, moves).threads == map[]
    decreases |moves|
  {
    hide Sound, Next;
    if moves == [] {
      DrainedIsEmpty(s);
    } else {
      ReachableIsSound(s);
      NextIsOnward(s, moves[0]);
      LaterIsReachable(s, [moves[0]]);
      assert Run(s, [moves[0]]) == Next(s, moves[0]) by {
        assert [moves[0]][1..] == [];
      }
      DrainedStaysEmpty(Next(s, moves[0]), moves[1..]);
    }
  }

  lemma DrainedIsEmpty(s: System)
    requires Reachable(s) && s.drained
    ensures s.threads == map[] && s.shutdown
  {
    ReachableIsSound(s);
  }

  /** A racing open or respawn is drained or refused: once the map is drained, every child ever
      registered is handed to a stop, was reaped, or is past its own exit; and every other one is
      turned away. */
  lemma RacingChildIsDrainedOrRefused(s: System, opener: OpenerId)
    requires Reachable(s) && s.drained && opener in s.openers
    ensures s.openers[opener].Registered? ==>
              var g := s.openers[opener].child;
              && g in s.sups
              && (g in s.handles || PastItsEntry(s.sups[g].stage))
    ensures s.openers[opener].Waiting? ==> Next(s, Registers(opener)).openers[opener].TurnedAway?
  {
    ReachableIsSound(s);
    DrainedIsEmpty(s);
    if s.openers[opener].Registered? {
      assert s.openers[opener].child in s.sups;
      hide Sound;
      StageFacts(s, s.openers[opener].child);
    }
  }
}
