/** What every interleaving of the facade and the supervisors keeps. */
module HarnessSafety {
  import opened Protocol
  import opened Harness

  type Threads = map<ThreadId, Entry>
  type Routes = map<ThreadId, Route>
  type Children = map<Generation, Supervised>

  predicate Routed(routes: Routes, g: Generation) {
    exists t <- routes :: routes[t].child == Some(g)
  }

  predicate Held(threads: Threads, g: Generation) {
    exists t <- threads :: threads[t].child == Some(g)
  }

  /** A child taken out by a reap: nothing queued, and nothing that could reach its queue. */
  predicate Unreachable(threads: Threads, routes: Routes, sups: Children, handles: set<Generation>, g: Generation)
    requires g in sups
  {
    sups[g].queue == [] && g !in handles && !Held(threads, g) && !Routed(routes, g)
  }

  predicate ReapsOk(threads: Threads, routes: Routes, sups: Children, handles: set<Generation>) {
    forall g <- sups :: WasReaped(sups[g].stage) ==> Unreachable(threads, routes, sups, handles, g)
  }

  /** Every generation and log in use was handed out. */
  predicate NumbersOk(threads: Threads, sups: Children, openLogs: set<LogId>, nextLog: LogId,
                      nextGeneration: Generation)
  {
    && (forall g <- sups :: g < nextGeneration && sups[g].log < nextLog)
    && (forall t <- threads :: threads[t].log < nextLog)
    && (forall l <- openLogs :: l < nextLog)
  }

  predicate Carries(sup: Supervised, route: Route) {
    route.owner == Some(sup.thread) && (sup.stage.Live? || sup.stage.Halting? || sup.stage.Gone?)
  }

  /** A live route leads to a child that serves, winds down, or was aborted. */
  predicate RoutesOk(routes: Routes, sups: Children) {
    forall t <- routes :: routes[t].child.Some? ==>
      routes[t].child.value in sups && Carries(sups[routes[t].child.value], routes[t])
  }

  predicate PastItsEntry(stage: Stage) {
    WasReaped(stage) || stage.Departed? || stage.Gone?
  }

  /** Every child an entry holds is its own, of its log, and neither reaped nor past its exit. */
  predicate HoldersOk(threads: Threads, sups: Children, handles: set<Generation>) {
    forall t <- threads :: threads[t].child.Some? ==>
      var g := threads[t].child.value;
      && g in sups
      && sups[g].thread == t
      && sups[g].log == threads[t].log
      && g !in handles
      && !PastItsEntry(sups[g].stage)
  }

  predicate HandlesOk(sups: Children, handles: set<Generation>) {
    forall g <- handles :: g in sups && !WasReaped(sups[g].stage)
  }

  /** Each log has at most one supervisor that was not reaped. */
  predicate WritersOk(sups: Children) {
    forall g, h | g in sups && h in sups && sups[g].log == sups[h].log ::
      g == h || WasReaped(sups[g].stage) || WasReaped(sups[h].stage)
  }

  predicate AllReaped(sups: Children, log: LogId) {
    forall g <- sups :: sups[g].log == log ==> WasReaped(sups[g].stage)
  }

  /** An entry without a child: its log is open, and every supervisor that had it was reaped. */
  predicate SlotsOk(threads: Threads, sups: Children, openLogs: set<LogId>) {
    forall t <- threads :: threads[t].child.None? ==>
      threads[t].log in openLogs && AllReaped(sups, threads[t].log)
  }

  /** The log of an entry is open until the very child it holds shuts it. */
  predicate LogsOk(threads: Threads, sups: Children, openLogs: set<LogId>) {
    forall t <- threads :: threads[t].child.Some? ==>
      && threads[t].child.value in sups
      && (threads[t].log in openLogs || sups[threads[t].child.value].stage.LogShut?)
  }

  predicate Apart(threads: Threads) {
    forall t, u | t in threads && u in threads && threads[t].log == threads[u].log :: t == u
  }

  /** Every child is in its entry, handed to a stop, reaped, or past its exit. */
  predicate PlacedOk(threads: Threads, sups: Children, handles: set<Generation>) {
    forall g <- sups :: Held(threads, g) || g in handles || PastItsEntry(sups[g].stage)
  }

  predicate OpenersOk(openers: map<OpenerId, Opener>, sups: Children) {
    forall o <- openers :: openers[o].Registered? ==> openers[o].child in sups
  }

  predicate Sound(s: System) {
    && !s.refusedIdle
    && (s.drained ==> s.shutdown && s.threads == map[])
    && ReapsOk(s.threads, s.routes, s.sups, s.handles)
    && NumbersOk(s.threads, s.sups, s.openLogs, s.nextLog, s.nextGeneration)
    && RoutesOk(s.routes, s.sups)
    && HoldersOk(s.threads, s.sups, s.handles)
    && HandlesOk(s.sups, s.handles)
    && WritersOk(s.sups)
    && SlotsOk(s.threads, s.sups, s.openLogs)
    && LogsOk(s.threads, s.sups, s.openLogs)
    && Apart(s.threads)
    && PlacedOk(s.threads, s.sups, s.handles)
    && OpenersOk(s.openers, s.sups)
  }

  lemma EmptyIsSound()
    ensures Sound(EMPTY)
  {
  }

  // ---- The few ways a section changes the system ----------------------------------------------

  /** What may become of a supervisor while the maps stay as they are. */
  predicate MayBecome(s: System, g: Generation, sup: Supervised) {
    && g in s.sups
    && var was := s.sups[g];
       && sup.thread == was.thread
       && sup.log == was.log
       && (WasReaped(was.stage) <==> WasReaped(sup.stage))
       && (WasReaped(sup.stage) ==> sup.queue == [])
       && (PastItsEntry(was.stage) ==> PastItsEntry(sup.stage))
       && (PastItsEntry(sup.stage) ==> !Held(s.threads, g))
       && (was.stage.LogShut? ==> sup.stage.LogShut? || !Held(s.threads, g))
       && (sup.stage.Live? || sup.stage.Halting? || sup.stage.Gone? || !Routed(s.routes, g))
  }

  lemma ChangeKeepsReach(s: System, g: Generation, sup: Supervised)
    requires Sound(s) && MayBecome(s, g, sup)
    ensures var sups := s.sups[g := sup];
            ReapsOk(s.threads, s.routes, sups, s.handles) && RoutesOk(s.routes, sups) && HandlesOk(sups, s.handles)
  {
    hide HoldersOk, WritersOk, SlotsOk, LogsOk, PlacedOk, NumbersOk, OpenersOk, Apart;
  }

  lemma ChangeKeepsLogs(s: System, g: Generation, sup: Supervised)
    requires Sound(s) && MayBecome(s, g, sup)
    ensures var sups := s.sups[g := sup];
            && NumbersOk(s.threads, sups, s.openLogs, s.nextLog, s.nextGeneration)
            && OpenersOk(s.openers, sups) && WritersOk(sups) && SlotsOk(s.threads, sups, s.openLogs)
  {
    hide RoutesOk, HoldersOk, LogsOk, PlacedOk, ReapsOk, HandlesOk, WasReaped, PastItsEntry, Held, Routed, Apart;
  }

  lemma ChangeKeepsHolders(s: System, g: Generation, sup: Supervised)
    requires Sound(s) && MayBecome(s, g, sup)
    ensures var sups := s.sups[g := sup];
            && HoldersOk(s.threads, sups, s.handles)
            && LogsOk(s.threads, sups, s.openLogs)
            && PlacedOk(s.threads, sups, s.handles)
  {
    hide RoutesOk, WritersOk, SlotsOk, NumbersOk, ReapsOk, HandlesOk, OpenersOk, Apart;
  }

  lemma SupervisorChanges(s: System, g: Generation, sup: Supervised)
    requires Sound(s) && MayBecome(s, g, sup)
    ensures Sound(s.(sups := s.sups[g := sup]))
  {
    hide RoutesOk, WritersOk, SlotsOk, NumbersOk, ReapsOk, HandlesOk, HoldersOk, LogsOk, PlacedOk, MayBecome;
    hide OpenersOk, Apart;
    ChangeKeepsReach(s, g, sup);
    ChangeKeepsLogs(s, g, sup);
    ChangeKeepsHolders(s, g, sup);
  }

  /** Routes may be forgotten or turn cold. */
  predicate Cooler(now: Routes, was: Routes) {
    forall t <- now :: now[t].child.Some? ==> t in was && now[t] == was[t]
  }

  lemma RoutesCool(s: System, routes: Routes)
    requires Sound(s) && Cooler(routes, s.routes)
    ensures Sound(s.(routes := routes))
  {
    hide WritersOk, SlotsOk, LogsOk, PlacedOk, NumbersOk, HandlesOk, HoldersOk, WasReaped, OpenersOk, Carries, Apart;
  }

  /** A log no entry relies on may close. */
  lemma LogCloses(s: System, log: LogId)
    requires Sound(s)
    requires forall t <- s.threads :: s.threads[t].log == log ==>
               && s.threads[t].child.Some? && s.threads[t].child.value in s.sups
               && s.sups[s.threads[t].child.value].stage.LogShut?
    ensures Sound(s.(openLogs := s.openLogs - {log}))
  {
    hide WasReaped, ReapsOk, RoutesOk, WritersOk, HandlesOk, HoldersOk, PlacedOk, OpenersOk, Apart, AllReaped;
  }

  /** A slot may hold another model, and the commands sent are only counted. */
  lemma BooksAreFree(s: System, sent: multiset<Token>)
    requires Sound(s)
    ensures Sound(s.(sent := sent))
  {
    hide RoutesOk, WritersOk, SlotsOk, NumbersOk, ReapsOk, HandlesOk, HoldersOk, LogsOk, PlacedOk, OpenersOk, Apart;
  }

  // ---- Every move ----------------------------------------------------------------------------

  /** What a supervisor's stage says about who can reach it. */
  lemma StageFacts(s: System, g: Generation)
    requires Sound(s) && g in s.sups
    ensures PastItsEntry(s.sups[g].stage) ==> !Held(s.threads, g)
    ensures s.sups[g].stage.Live? || s.sups[g].stage.Halting? || s.sups[g].stage.Gone? || !Routed(s.routes, g)
    ensures WasReaped(s.sups[g].stage) ==> Unreachable(s.threads, s.routes, s.sups, s.handles, g)
    ensures Holds(s, g) <==> Held(s.threads, g)
    ensures PastItsEntry(s.sups[g].stage) || Held(s.threads, g) || g in s.handles
  {
    hide NumbersOk, HandlesOk, WritersOk, SlotsOk, LogsOk, OpenersOk, Apart;
  }

  lemma SendNowIsSound(s: System, g: Generation, c: Command)
    requires Sound(s) && g in s.sups && !WasReaped(s.sups[g].stage)
    ensures Sound(SendNow(s, g, c).0)
  {
    hide Sound, Held, Routed;
    var sup := s.sups[g];
    if !sup.stage.Gone? && |sup.queue| < COMMAND_QUEUE {
      StageFacts(s, g);
      SupervisorChanges(s, g, sup.(queue := sup.queue + [c]));
      BooksAreFree(s.(sups := s.sups[g := sup.(queue := sup.queue + [c])]), s.sent + multiset{c.reply});
    }
  }

  lemma EnqueueIsSound(s: System, thread: ThreadId, c: Command)
    requires Sound(s)
    ensures Sound(Enqueue(s, thread, c).0)
  {
    hide SendNow, ReapsOk, RoutesOk, NumbersOk, HandlesOk, WritersOk, SlotsOk, LogsOk, PlacedOk, OpenersOk, Apart;
    if thread in s.threads && s.threads[thread].child.Some? {
      SendNowIsSound(s, s.threads[thread].child.value, c);
    }
  }

  lemma InterruptRouteIsSound(s: System, thread: ThreadId, c: Command)
    requires Sound(s)
    ensures Sound(InterruptRoute(s, thread, c).0)
  {
    hide SendNow, NumbersOk, HandlesOk, HoldersOk, WritersOk, SlotsOk, LogsOk, PlacedOk, OpenersOk, Apart;
    if thread in s.routes && s.routes[thread].child.Some? {
      var g := s.routes[thread].child.value;
      assert Routed(s.routes, g);
      SendNowIsSound(s, g, c);
    }
  }

  lemma PublishIsSound(s: System, g: Generation, route: ThreadId)
    requires Sound(s) && Looping(s, g)
    ensures Sound(PublishRoute(s, g, route))
  {
    hide NumbersOk, HandlesOk, HoldersOk, WritersOk, SlotsOk, LogsOk, PlacedOk, OpenersOk, Apart, Held;
    var routes := PublishRoute(s, g, route).routes;
    forall h | Routed(routes, h) ensures h == g || Routed(s.routes, h) {
      var t :| t in routes && routes[t].child == Some(h);
    }
  }

  /** The children of the other entries stay held, and no others are. */
  lemma HeldAfter(threads: Threads, thread: ThreadId, entry: Entry, g: Generation)
    ensures Held(threads[thread := entry], g) ==> entry.child == Some(g) || Held(threads, g)
    ensures entry.child == Some(g) ==> Held(threads[thread := entry], g)
    ensures Held(threads, g) && (thread in threads && threads[thread].child == Some(g) ==> entry.child == Some(g)) ==>
              Held(threads[thread := entry], g)
  {
    var after := threads[thread := entry];
    if entry.child == Some(g) {
      assert after[thread].child == Some(g);
    } else if Held(threads, g) {
      var t :| t in threads && threads[t].child == Some(g);
      assert t != thread ==> after[t].child == Some(g);
    }
  }

  lemma HeldWithout(threads: Threads, thread: ThreadId, g: Generation)
    ensures Held(threads - {thread}, g) ==> Held(threads, g)
    ensures Held(threads, g) && (thread in threads ==> threads[thread].child != Some(g)) ==>
              Held(threads - {thread}, g)
  {
    if Held(threads, g) {
      var t :| t in threads && threads[t].child == Some(g);
      assert t != thread ==> (threads - {thread})[t].child == Some(g);
    }
  }

  /** A new child for a thread: its entry's first, or the next one on the log of an empty slot. */
  predicate Fits(s: System, thread: ThreadId, log: LogId) {
    if thread in s.threads then s.threads[thread].child.None? && s.threads[thread].log == log
    else log == s.nextLog
  }

  function Joined(s: System, thread: ThreadId, log: LogId, model: ModelRef): System {
    s.(sups := s.sups[s.nextGeneration := Supervised(thread, log, [], Live)],
       threads := s.threads[thread := Entry(log, Some(s.nextGeneration), model)],
       openLogs := s.openLogs + {log},
       nextLog := (if log < s.nextLog then s.nextLog else log + 1),
       nextGeneration := s.nextGeneration + 1)
  }

  lemma NewName(s: System)
    requires Sound(s)
    ensures s.nextGeneration !in s.sups && s.nextGeneration !in s.handles
    ensures !Held(s.threads, s.nextGeneration) && !Routed(s.routes, s.nextGeneration)
  {
    hide SlotsOk, WritersOk, Apart, PlacedOk, ReapsOk, OpenersOk, LogsOk;
  }

  lemma NewLog(s: System)
    requires Sound(s)
    ensures forall t <- s.threads :: s.threads[t].log != s.nextLog
    ensures forall g <- s.sups :: s.sups[g].log != s.nextLog
  {
    hide SlotsOk, WritersOk, Apart, PlacedOk, ReapsOk, OpenersOk, LogsOk;
  }

  lemma JoinKeepsReach(s: System, thread: ThreadId, log: LogId, model: ModelRef)
    requires Sound(s) && Fits(s, thread, log)
    ensures var j := Joined(s, thread, log, model);
            && ReapsOk(j.threads, j.routes, j.sups, j.handles)
            && RoutesOk(j.routes, j.sups)
            && HandlesOk(j.sups, j.handles)
            && PlacedOk(j.threads, j.sups, j.handles)
  {
    NewName(s);
    var j := Joined(s, thread, log, model);
    hide SlotsOk, WritersOk, Apart, LogsOk, OpenersOk, NumbersOk, Routed, Held, HoldersOk;
    forall g ensures Held(j.threads, g) <==> g == s.nextGeneration || Held(s.threads, g) {
      HeldAfter(s.threads, thread, Entry(log, Some(s.nextGeneration), model), g);
      SlotHoldsNone(s, thread, g);
    }
  }

  lemma SlotHoldsNone(s: System, thread: ThreadId, g: Generation)
    requires thread in s.threads ==> s.threads[thread].child.None?
    ensures thread in s.threads ==> s.threads[thread].child != Some(g)
  {
  }

  lemma JoinKeepsEntries(s: System, thread: ThreadId, log: LogId, model: ModelRef)
    requires Sound(s) && Fits(s, thread, log)
    ensures var j := Joined(s, thread, log, model);
            && NumbersOk(j.threads, j.sups, j.openLogs, j.nextLog, j.nextGeneration)
            && HoldersOk(j.threads, j.sups, j.handles)
            && OpenersOk(j.openers, j.sups)
            && Apart(j.threads)
            && LogsOk(j.threads, j.sups, j.openLogs)
  {
    NewName(s);
    NewLog(s);
    hide SlotsOk, WritersOk, Routed, Held, PlacedOk, ReapsOk, RoutesOk, HandlesOk;
  }

  lemma JoinKeepsWriters(s: System, thread: ThreadId, log: LogId, model: ModelRef)
    requires Sound(s) && Fits(s, thread, log)
    ensures var j := Joined(s, thread, log, model);
            WritersOk(j.sups) && SlotsOk(j.threads, j.sups, j.openLogs)
  {
    NewName(s);
    NewLog(s);
    hide Routed, Held, PlacedOk, ReapsOk, RoutesOk, HandlesOk, NumbersOk, OpenersOk, LogsOk, HoldersOk;
  }

  lemma JoinIsSound(s: System, thread: ThreadId, log: LogId, model: ModelRef)
    requires Sound(s) && Fits(s, thread, log) && !s.shutdown
    ensures Sound(Joined(s, thread, log, model))
  {
    hide ReapsOk, RoutesOk, HandlesOk, PlacedOk, NumbersOk, HoldersOk, OpenersOk, Apart, LogsOk, WritersOk, SlotsOk;
    JoinKeepsReach(s, thread, log, model);
    JoinKeepsEntries(s, thread, log, model);
    JoinKeepsWriters(s, thread, log, model);
  }

  lemma OpenerMoves(s: System, opener: OpenerId, now: Opener)
    requires Sound(s) && (now.Registered? ==> now.child in s.sups)
    ensures Sound(s.(openers := s.openers[opener := now]))
  {
    hide ReapsOk, RoutesOk, HandlesOk, PlacedOk, NumbersOk, HoldersOk, Apart, LogsOk, WritersOk, SlotsOk;
  }

  lemma SlotFacts(s: System, thread: ThreadId)
    requires Sound(s) && thread in s.threads && s.threads[thread].child.None?
    ensures s.threads[thread].log in s.openLogs && s.threads[thread].log < s.nextLog
  {
    hide ReapsOk, RoutesOk, HandlesOk, PlacedOk, HoldersOk, OpenersOk, Apart, LogsOk, WritersOk;
  }

  lemma RegisterIsSound(s: System, opener: OpenerId)
    requires Sound(s) && opener in s.openers && s.openers[opener].Waiting?
    ensures Sound(Register(s, opener))
  {
    hide Sound;
    var Waiting(thread, respawn, model) := s.openers[opener];
    var open := thread in s.threads;
    if s.shutdown || (if open then s.threads[thread].child.Some? || !respawn else respawn) {
      OpenerMoves(s, opener, TurnedAway);
    } else {
      var log := if open then s.threads[thread].log else s.nextLog;
      if open {
        SlotFacts(s, thread);
        assert s.openLogs + {log} == s.openLogs;
      }
      JoinIsSound(s, thread, log, model);
      OpenerMoves(Joined(s, thread, log, model), opener, Registered(s.nextGeneration));
    }
  }

  /** A child taken out of its entry by a stop, which keeps its handle. */
  function HandedOver(s: System, thread: ThreadId, g: Generation): System {
    s.(threads := s.threads - {thread}, handles := s.handles + {g})
  }

  /** A child is held by the one entry of its own thread. */
  lemma HeldOnce(s: System, thread: ThreadId, g: Generation)
    requires Sound(s) && thread in s.threads && s.threads[thread].child == Some(g)
    ensures g in s.sups && s.sups[g].thread == thread && g !in s.handles && !PastItsEntry(s.sups[g].stage)
    ensures !Held(s.threads - {thread}, g)
  {
    hide ReapsOk, RoutesOk, HandlesOk, PlacedOk, NumbersOk, OpenersOk, Apart, LogsOk, WritersOk, SlotsOk;
  }

  lemma HandOverKeepsReach(s: System, thread: ThreadId, g: Generation)
    requires Sound(s) && thread in s.threads && s.threads[thread].child == Some(g)
    ensures var h := HandedOver(s, thread, g);
            && ReapsOk(h.threads, h.routes, h.sups, h.handles)
            && HandlesOk(h.sups, h.handles)
            && PlacedOk(h.threads, h.sups, h.handles)
  {
    HeldOnce(s, thread, g);
    hide SlotsOk, WritersOk, Apart, LogsOk, OpenersOk, NumbersOk, Routed, Held, HoldersOk, RoutesOk;
    var h := HandedOver(s, thread, g);
    forall f ensures Held(h.threads, f) <==> f != g && Held(s.threads, f) {
      HeldWithout(s.threads, thread, f);
    }
  }

  lemma HandOverKeepsEntries(s: System, thread: ThreadId, g: Generation)
    requires Sound(s) && thread in s.threads && s.threads[thread].child == Some(g)
    ensures var h := HandedOver(s, thread, g);
            && NumbersOk(h.threads, h.sups, h.openLogs, h.nextLog, h.nextGeneration)
            && HoldersOk(h.threads, h.sups, h.handles)
            && SlotsOk(h.threads, h.sups, h.openLogs)
            && LogsOk(h.threads, h.sups, h.openLogs)
            && Apart(h.threads)
  {
    HeldOnce(s, thread, g);
    hide WritersOk, OpenersOk, Routed, Held, RoutesOk, ReapsOk, HandlesOk, PlacedOk, AllReaped;
  }

  lemma HandOverIsSound(s: System, thread: ThreadId, g: Generation)
    requires Sound(s) && thread in s.threads && s.threads[thread].child == Some(g)
    ensures Sound(HandedOver(s, thread, g))
  {
    hide ReapsOk, RoutesOk, HandlesOk, PlacedOk, NumbersOk, HoldersOk, OpenersOk, Apart, LogsOk, WritersOk, SlotsOk;
    HandOverKeepsReach(s, thread, g);
    HandOverKeepsEntries(s, thread, g);
  }

  lemma SlotGoes(s: System, thread: ThreadId)
    requires Sound(s) && thread in s.threads && s.threads[thread].child.None?
    ensures Sound(s.(threads := s.threads - {thread}))
    ensures forall t <- s.threads - {thread} :: s.threads[t].log != s.threads[thread].log
  {
    var after := s.(threads := s.threads - {thread});
    hide WritersOk, RoutesOk, OpenersOk, HandlesOk, AllReaped, Routed, WasReaped, Held;
    forall g ensures Held(after.threads, g) <==> Held(s.threads, g) {
      HeldWithout(s.threads, thread, g);
    }
  }

  lemma ForgetIsSound(s: System, thread: ThreadId)
    requires Sound(s) && thread in s.threads
    ensures Sound(Forget(s, thread))
  {
    hide Sound;
    var entry := s.threads[thread];
    if entry.child.Some? {
      HandOverIsSound(s, thread, entry.child.value);
    } else {
      SlotGoes(s, thread);
      LogCloses(s.(threads := s.threads - {thread}), entry.log);
    }
  }

  lemma DrainIsSound(s: System)
    requires Sound(s) && s.shutdown
    ensures Sound(DrainThreads(s))
  {
  }

  lemma AbortIsSound(s: System, g: Generation)
    requires Sound(s) && CanMove(s, Aborts(g))
    ensures Sound(Moved(s, Aborts(g)))
  {
    hide Sound, Held, Routed;
    StageFacts(s, g);
    HandledFacts(s, g);
    var aborted := s.sups[g].(stage := Gone(WasReaped(s.sups[g].stage)));
    SupervisorChanges(s, g, aborted);
    LogCloses(s.(sups := s.sups[g := aborted]), s.sups[g].log);
  }

  /** No entry has the log of a child that was handed to a stop. */
  lemma HandledFacts(s: System, g: Generation)
    requires Sound(s) && g in s.handles
    ensures g in s.sups && !WasReaped(s.sups[g].stage) && !Held(s.threads, g)
    ensures forall t <- s.threads :: s.threads[t].log != s.sups[g].log
  {
    hide NumbersOk, LogsOk, OpenersOk, Apart, RoutesOk, PlacedOk;
  }

  lemma CoolIsSound(s: System, g: Generation)
    requires Sound(s) && Serving(s, g)
    ensures Sound(Cool(s, g))
  {
    hide Sound, Held;
    StageFacts(s, g);
    CoolRoutesFacts(s, g);
    var cooled := s.(routes := CoolRoutes(s.routes, s.sups[g].thread, g));
    RoutesCool(s, cooled.routes);
    SupervisorChanges(cooled, g, s.sups[g].(stage := Cooled));
  }

  lemma CoolRoutesFacts(s: System, g: Generation)
    requires Sound(s) && g in s.sups
    ensures var routes := CoolRoutes(s.routes, s.sups[g].thread, g);
            Cooler(routes, s.routes) && !Routed(routes, g)
  {
    hide NumbersOk, LogsOk, OpenersOk, Apart, HandlesOk, HoldersOk, WritersOk, SlotsOk, PlacedOk, ReapsOk;
  }

  lemma TakeIsSound(s: System, g: Generation, model: ModelRef)
    requires Sound(s) && Cooling(s, g)
    ensures Sound(Take(s, g, model))
  {
    hide Sound, Held, Routed;
    StageFacts(s, g);
    if !Holds(s, g) {
      SupervisorChanges(s, g, s.sups[g].(stage := Halting));
    } else if s.sups[g].queue != [] {
      SupervisorChanges(s, g, s.sups[g].(stage := Live, queue := s.sups[g].queue[1..]));
    } else {
      TakenIsSound(s, g, model);
    }
  }

  lemma TakenKeepsReach(s: System, g: Generation, model: ModelRef)
    requires Sound(s) && Cooling(s, g) && Holds(s, g) && s.sups[g].queue == []
    ensures var t := Take(s, g, model);
            && ReapsOk(t.threads, t.routes, t.sups, t.handles)
            && RoutesOk(t.routes, t.sups)
            && HandlesOk(t.sups, t.handles)
            && PlacedOk(t.threads, t.sups, t.handles)
  {
    StageFacts(s, g);
    var thread := s.sups[g].thread;
    HeldOnce(s, thread, g);
    var t := Take(s, g, model);
    HeldNowhere(s, thread, g, t.threads[thread]);
    hide SlotsOk, WritersOk, Apart, LogsOk, OpenersOk, NumbersOk, Routed, Held, HoldersOk, Holds;
    forall f ensures Held(t.threads, f) <==> f != g && Held(s.threads, f) {
      HeldAfter(s.threads, thread, t.threads[thread], f);
    }
    RouteLess(s, g);
  }

  lemma HeldNowhere(s: System, thread: ThreadId, g: Generation, entry: Entry)
    requires Sound(s) && thread in s.threads && s.threads[thread].child == Some(g) && entry.child.None?
    ensures !Held(s.threads[thread := entry], g)
  {
    hide ReapsOk, RoutesOk, HandlesOk, PlacedOk, NumbersOk, OpenersOk, Apart, LogsOk, WritersOk, SlotsOk;
  }

  lemma RouteLess(s: System, g: Generation)
    requires !Routed(s.routes, g)
    ensures forall t <- s.routes :: s.routes[t].child != Some(g)
  {
  }

  lemma TakenKeepsEntries(s: System, g: Generation, model: ModelRef)
    requires Sound(s) && Cooling(s, g) && Holds(s, g) && s.sups[g].queue == []
    ensures var t := Take(s, g, model);
            && NumbersOk(t.threads, t.sups, t.openLogs, t.nextLog, t.nextGeneration)
            && HoldersOk(t.threads, t.sups, t.handles)
            && OpenersOk(t.openers, t.sups)
            && LogsOk(t.threads, t.sups, t.openLogs)
            && Apart(t.threads)
  {
    HeldOnce(s, s.sups[g].thread, g);
    hide WritersOk, Routed, Held, RoutesOk, ReapsOk, HandlesOk, PlacedOk, AllReaped, SlotsOk;
  }

  lemma TakenKeepsWriters(s: System, g: Generation, model: ModelRef)
    requires Sound(s) && Cooling(s, g) && Holds(s, g) && s.sups[g].queue == []
    ensures var t := Take(s, g, model); WritersOk(t.sups) && SlotsOk(t.threads, t.sups, t.openLogs)
  {
    hide Routed, Held, RoutesOk, ReapsOk, HandlesOk, PlacedOk, NumbersOk, Apart, OpenersOk;
  }

  lemma TakenIsSound(s: System, g: Generation, model: ModelRef)
    requires Sound(s) && Cooling(s, g) && Holds(s, g) && s.sups[g].queue == []
    ensures Sound(Take(s, g, model))
  {
    hide ReapsOk, RoutesOk, HandlesOk, PlacedOk, NumbersOk, HoldersOk, OpenersOk, Apart, LogsOk, WritersOk, SlotsOk;
    TakenKeepsReach(s, g, model);
    TakenKeepsEntries(s, g, model);
    TakenKeepsWriters(s, g, model);
  }

  lemma ReceiveIsSound(s: System, g: Generation)
    requires Sound(s) && g in s.sups && (Looping(s, g) || s.sups[g].stage.Reaped?) && s.sups[g].queue != []
    ensures Sound(Receive(s, g))
  {
    hide Sound, Held, Routed;
    StageFacts(s, g);
    SupervisorChanges(s, g, s.sups[g].(queue := s.sups[g].queue[1..]));
  }

  lemma ExitIsSound(s: System, g: Generation)
    requires Sound(s) && Looping(s, g)
    ensures Sound(BeginExit(s, g))
  {
    hide Sound, Held;
    StageFacts(s, g);
    CoolRoutesFacts(s, g);
    var cooled := s.(routes := CoolRoutes(s.routes, s.sups[g].thread, g));
    RoutesCool(s, cooled.routes);
    SupervisorChanges(cooled, g, s.sups[g].(stage := Exiting));
  }

  lemma CloseLogIsSound(s: System, g: Generation)
    requires Sound(s) && g in s.sups && s.sups[g].stage.Exiting?
    ensures Sound(CloseLog(s, g))
  {
    hide Sound, Held, Routed;
    StageFacts(s, g);
    var shut := s.sups[g].(stage := LogShut);
    SupervisorChanges(s, g, shut);
    OnlyWriter(s, g);
    LogCloses(s.(sups := s.sups[g := shut]), shut.log);
  }

  /** An entry with the log of a supervisor that was not reaped holds that supervisor. */
  lemma OnlyWriter(s: System, g: Generation)
    requires Sound(s) && g in s.sups && !WasReaped(s.sups[g].stage)
    ensures forall t <- s.threads :: s.threads[t].log == s.sups[g].log ==> s.threads[t].child == Some(g)
  {
    hide NumbersOk, LogsOk, OpenersOk, Apart, RoutesOk, PlacedOk, HandlesOk, ReapsOk;
  }

  /** A child past its entry needs no handle. */
  lemma HandleGoes(s: System, g: Generation)
    requires Sound(s) && g in s.sups && PastItsEntry(s.sups[g].stage)
    ensures Sound(s.(handles := s.handles - {g}))
  {
    hide Routed, Held, RoutesOk, NumbersOk, Apart, OpenersOk, LogsOk, WritersOk, SlotsOk;
  }

  lemma LeaveIsSound(s: System, g: Generation)
    requires Sound(s) && g in s.sups && s.sups[g].stage.LogShut?
    ensures Sound(LeaveEntry(s, g))
  {
    hide Sound, Held, Routed;
    StageFacts(s, g);
    var thread, departed := s.sups[g].thread, s.sups[g].(stage := Departed);
    if Holds(s, g) {
      HeldOnce(s, thread, g);
      HandOverIsSound(s, thread, g);
      var over := HandedOver(s, thread, g);
      SupervisorChanges(over, g, departed);
      HandleGoes(over.(sups := s.sups[g := departed]), g);
      assert over.handles - {g} == s.handles;
    } else {
      SupervisorChanges(s, g, departed);
    }
  }

  lemma RouteMovesAreSound(s: System, m: Move)
    requires Sound(s) && CanMove(s, m)
    requires m.Claims? || m.ForgetsRoute? || m.DrainsRoutes?
    ensures Sound(Moved(s, m))
  {
    hide Sound;
    RoutesCool(s, Moved(s, m).routes);
  }

  lemma PlainMovesAreSound(s: System, m: Move)
    requires Sound(s) && CanMove(s, m)
    requires m.Handshaken? || m.Discards? || m.RaisesShutdown?
    ensures Sound(Moved(s, m))
  {
    hide RoutesOk, WritersOk, SlotsOk, NumbersOk, ReapsOk, HandlesOk, HoldersOk, LogsOk, PlacedOk, Apart;
  }

  lemma StageMovesAreSound(s: System, m: Move)
    requires Sound(s) && CanMove(s, m)
    requires m.Halts? || m.Drops?
    ensures Sound(Moved(s, m))
  {
    hide Sound, Held, Routed;
    StageFacts(s, m.g);
    SupervisorChanges(s, m.g, Moved(s, m).sups[m.g]);
  }

  lemma SyncIsSound(s: System, g: Generation, model: ModelRef)
    requires Sound(s) && g in s.sups
    ensures Sound(SyncModel(s, g, model))
  {
    if Holds(s, g) {
      var thread := s.sups[g].thread;
      var entry := s.threads[thread].(model := model);
      hide WritersOk, RoutesOk, OpenersOk, HandlesOk, AllReaped, Routed, WasReaped, Held, PastItsEntry;
      forall f ensures Held(s.threads[thread := entry], f) <==> Held(s.threads, f) {
        HeldAfter(s.threads, thread, entry, f);
      }
    }
  }

  lemma NextIsSound(s: System, m: Move)
    requires Sound(s)
    ensures Sound(Next(s, m))
  {
    hide Sound, Enqueue, InterruptRoute, SendNow, Register, Forget, DrainThreads, PublishRoute, Cool, Take,
      Receive, BeginExit, CloseLog, LeaveEntry, SyncModel;
    if CanMove(s, m) {
      match m
      case Registers(opener) => RegisterIsSound(s, opener);
      case Sends(thread, command) => EnqueueIsSound(s, thread, command);
      case StopsRoute(thread, command) => InterruptRouteIsSound(s, thread, command);
      case Forgets(thread) => ForgetIsSound(s, thread);
      case SendsStop(g, command) =>
        HandledFacts(s, g);
        SendNowIsSound(s, g, command);
      case Aborts(g) => AbortIsSound(s, g);
      case DrainsThreads => DrainIsSound(s);
      case PublishesRoute(g, route) => PublishIsSound(s, g, route);
      case Cools(g) => CoolIsSound(s, g);
      case Takes(g, model) => TakeIsSound(s, g, model);
      case Receives(g) => ReceiveIsSound(s, g);
      case Exits(g) => ExitIsSound(s, g);
      case ClosesLog(g) => CloseLogIsSound(s, g);
      case Leaves(g) => LeaveIsSound(s, g);
      case Syncs(g, model) => SyncIsSound(s, g, model);
      case Handshaken(_, _, _, _) => PlainMovesAreSound(s, m);
      case Discards(_) => PlainMovesAreSound(s, m);
      case RaisesShutdown => PlainMovesAreSound(s, m);
      case Claims(_) => RouteMovesAreSound(s, m);
      case ForgetsRoute(_) => RouteMovesAreSound(s, m);
      case DrainsRoutes => RouteMovesAreSound(s, m);
      case Halts(_) => StageMovesAreSound(s, m);
      case Drops(_) => StageMovesAreSound(s, m);
    }
  }

  lemma {:induction false} RunIsSound(s: System, moves: seq<Move>)
    requires Sound(s)
    ensures Sound(Run(s, moves))
    decreases |moves|
  {
    hide Sound, Next;
    if moves != [] {
      NextIsSound(s, moves[0]);
      RunIsSound(Next(s, moves[0]), moves[1..]);
    }
  }
}
