/** The locked sections of one supervisor, read off what it does: which section of `Harness` each
    observation stands for, and that each is one the system lets that child take. */
module Sections {
  import opened Protocol
  import opened Trace
  import H = Harness

  /** Where a child stands among its sections. Between dropping its thread's asks and cooling its
      routes it is still where it was; `Astray` is past a section the system does not allow. */
  datatype Place = At(stage: H.Stage) | Dropping(stage: H.Stage) | Astray

  predicate InLoop(stage: H.Stage) {
    stage.Live? || stage.Halting?
  }

  /** The observation is one of the sections. */
  predicate Marks(o: Obs) {
    || o.RoutePublished? || o.EntrySynced? || o.RoutesCooled? || o.ReapCancelled? || o.EntryReleased?
    || o.Stopping? || o.AsksDropped? || o.LogClosed? || o.EntryRemoved? || o.ExitHandled?
  }

  /** The place after an observation. */
  function Goes(p: Place, o: Obs): Place {
    match o
    case RoutePublished(_) => if p.At? && InLoop(p.stage) then p else Astray
    case EntrySynced(_) => if p == At(H.Live) then p else Astray
    case RoutesCooled =>
      if p.Dropping? && InLoop(p.stage) then At(H.Exiting)
      else if p == At(H.Live) then At(H.Cooled)
      else if p == At(H.Reaped) then p
      else Astray
    case ReapCancelled => if p == At(H.Cooled) then At(H.Live) else Astray
    case EntryReleased(_) => if p == At(H.Cooled) then At(H.Reaped) else Astray
    case Stopping(_, _, _) =>
      if p == At(H.Live) || p == At(H.Cooled) then At(H.Halting)
      else if p == At(H.Reaped) then p
      else Astray
    case AsksDropped(_) => if p.At? && InLoop(p.stage) then Dropping(p.stage) else Astray
    case LogClosed => if p == At(H.Exiting) then At(H.LogShut) else Astray
    case EntryRemoved => if p == At(H.LogShut) then At(H.Departed) else Astray
    case ExitHandled =>
      if p == At(H.LogShut) || p == At(H.Departed) then At(H.Gone(false))
      else if p == At(H.Reaped) then At(H.Gone(true))
      else Astray
    case _ => p
  }

  /** Where a log leads from `p`. */
  function Onward(p: Place, log: seq<Obs>): Place
    decreases |log|
  {
    if log == [] then p else Onward(Goes(p, log[0]), log[1..])
  }

  lemma {:induction false} OnwardAppend(p: Place, log: seq<Obs>, o: Obs)
    ensures Onward(p, log + [o]) == Goes(Onward(p, log), o)
    decreases |log|
  {
    hide Goes;
    if log == [] {
      assert [o][1..] == [];
    } else {
      assert (log + [o])[1..] == log[1..] + [o];
      OnwardAppend(Goes(p, log[0]), log[1..], o);
    }
  }

  lemma {:induction false} AstrayStays(log: seq<Obs>)
    ensures Onward(Astray, log).Astray?
    decreases |log|
  {
    if log != [] {
      AstrayStays(log[1..]);
    }
  }

  /** Where a child's log leads, from its registration on. */
  function Walk(log: seq<Obs>): Place {
    Onward(At(H.Live), log)
  }

  /** The sections an observation stands for. A child that finds its entry gone takes a section all
      the same, and says nothing of it. */
  function SectionsOf(p: Place, o: Obs, g: H.Generation, model: ModelRef): seq<H.Move> {
    match o
    case RoutePublished(route) => [H.PublishesRoute(g, route)]
    case EntrySynced(held) => [H.Syncs(g, held)]
    case RoutesCooled => if p.Dropping? then [H.Exits(g)] else if p == At(H.Live) then [H.Cools(g)] else []
    case ReapCancelled => [H.Takes(g, model)]
    case EntryReleased(held) => [H.Takes(g, held)]
    case Stopping(_, _, _) =>
      if p == At(H.Live) then [H.Halts(g)] else if p == At(H.Cooled) then [H.Takes(g, model)] else []
    case LogClosed => [H.ClosesLog(g)]
    case EntryRemoved => [H.Leaves(g)]
    case ExitHandled => if p == At(H.LogShut) then [H.Leaves(g), H.Drops(g)] else [H.Drops(g)]
    case _ => []
  }

  /** What the supervisor found under the lock is what the system holds. */
  predicate Found(s: H.System, p: Place, o: Obs, g: H.Generation) {
    g in s.sups &&
    match o
    case ReapCancelled => H.Holds(s, g) && s.sups[g].queue != []
    case EntryReleased(_) => H.Holds(s, g) && s.sups[g].queue == []
    case Stopping(_, _, _) => p == At(H.Cooled) ==> !H.Holds(s, g)
    case EntryRemoved => H.Holds(s, g)
    case EntrySynced(_) => H.Holds(s, g)
    case ExitHandled => p == At(H.LogShut) ==> !H.Holds(s, g)
    case _ => true
  }

  predicate Stands(s: H.System, g: H.Generation, p: Place) {
    g in s.sups && !p.Astray? && s.sups[g].stage == p.stage
  }

  predicate AllCanMove(s: H.System, moves: seq<H.Move>)
    decreases |moves|
  {
    moves == [] || (H.CanMove(s, moves[0]) && AllCanMove(H.Next(s, moves[0]), moves[1..]))
  }

  lemma OneSection(s: H.System, m: H.Move)
    ensures AllCanMove(s, [m]) == H.CanMove(s, m)
    ensures H.Run(s, [m]) == H.Next(s, m)
    ensures AllCanMove(s, []) && H.Run(s, []) == s
  {
    hide H.Next;
    assert [m][1..] == [];
  }

  lemma TwoSections(s: H.System, m: H.Move, n: H.Move)
    requires H.CanMove(s, m) && H.CanMove(H.Next(s, m), n)
    ensures AllCanMove(s, [m, n])
    ensures H.Run(s, [m, n]) == H.Next(H.Next(s, m), n)
  {
    OneSection(H.Next(s, m), n);
    assert [m, n][1..] == [n];
    hide H.Next;
  }

  lemma Departs(s: H.System, g: H.Generation) returns (left: H.System)
    requires Stands(s, g, At(H.LogShut))
    ensures H.CanMove(s, H.Leaves(g)) && left == H.Next(s, H.Leaves(g)) && Stands(left, g, At(H.Departed))
  {
    left := H.Next(s, H.Leaves(g));
  }

  lemma Drop(s: H.System, g: H.Generation)
    requires Stands(s, g, At(H.Departed))
    ensures H.CanMove(s, H.Drops(g)) && Stands(H.Next(s, H.Drops(g)), g, At(H.Gone(false)))
  {
  }

  /** The end of a child that found its entry gone: it leaves all the same, and its queue goes. */
  lemma LeavesUnseen(s: H.System, g: H.Generation)
    requires Stands(s, g, At(H.LogShut))
    ensures AllCanMove(s, [H.Leaves(g), H.Drops(g)])
    ensures Stands(H.Run(s, [H.Leaves(g), H.Drops(g)]), g, At(H.Gone(false)))
  {
    hide H.Run, H.Next, H.CanMove;
    var left := Departs(s, g);
    Drop(left, g);
    TwoSections(s, H.Leaves(g), H.Drops(g));
  }

  lemma TakeLands(s: H.System, p: Place, o: Obs, g: H.Generation, m: H.Move)
    requires Stands(s, g, p) && Found(s, p, o, g) && p == At(H.Cooled) && m.Takes? && m.g == g
    requires o.ReapCancelled? || o.EntryReleased? || o.Stopping?
    ensures H.CanMove(s, m) && Stands(H.Next(s, m), g, Goes(p, o))
  {
  }

  lemma RoutesLand(s: H.System, p: Place, g: H.Generation, m: H.Move)
    requires Stands(s, g, p) && !Goes(p, RoutesCooled).Astray? && SectionsOf(p, RoutesCooled, g, ANY) == [m]
    ensures H.CanMove(s, m) && Stands(H.Next(s, m), g, Goes(p, RoutesCooled))
  {
    hide H.CoolRoutes, H.Holds;
  }

  lemma ExitLands(s: H.System, p: Place, o: Obs, g: H.Generation, m: H.Move)
    requires Stands(s, g, p) && !Goes(p, o).Astray? && SectionsOf(p, o, g, ANY) == [m]
    requires o.LogClosed? || o.EntryRemoved? || (o.ExitHandled? && p != At(H.LogShut))
    ensures H.CanMove(s, m) && Stands(H.Next(s, m), g, Goes(p, o))
  {
    hide H.Holds;
  }

  lemma LoopLands(s: H.System, p: Place, o: Obs, g: H.Generation, m: H.Move)
    requires Stands(s, g, p) && Found(s, p, o, g) && !Goes(p, o).Astray?
    requires o.RoutePublished? || o.EntrySynced? || (o.Stopping? && p == At(H.Live))
    requires SectionsOf(p, o, g, ANY) == [m]
    ensures H.CanMove(s, m) && Stands(H.Next(s, m), g, Goes(p, o))
  {
  }

  const ANY: ModelRef := ModelRef("", None)

  /** Every section a supervisor takes is one the system lets its child take, and leaves the child
      where the supervisor goes. */
  lemma SectionsLand(s: H.System, p: Place, o: Obs, g: H.Generation, model: ModelRef)
    requires Stands(s, g, p) && Found(s, p, o, g) && !Goes(p, o).Astray?
    ensures AllCanMove(s, SectionsOf(p, o, g, model))
    ensures Stands(H.Run(s, SectionsOf(p, o, g, model)), g, Goes(p, o))
  {
    hide H.CanMove, H.Next, H.Run, AllCanMove, Found;
    var moves := SectionsOf(p, o, g, model);
    if o.ExitHandled? && p == At(H.LogShut) {
      LeavesUnseen(s, g);
    } else if moves == [] {
      OneSection(s, H.RaisesShutdown);
    } else {
      var m := moves[0];
      assert moves == [m];
      OneSection(s, m);
      if m.Takes? {
        TakeLands(s, p, o, g, m);
      } else if p.At? && InLoop(p.stage) && !o.RoutesCooled? {
        LoopLands(s, p, o, g, m);
      } else if o.RoutesCooled? {
        RoutesLand(s, p, g, m);
      } else {
        ExitLands(s, p, o, g, m);
      }
    }
  }

  /** A section that only the supervisor of `g` takes, other than taking a command; or its abort. */
  predicate OwnSection(m: H.Move, g: H.Generation) {
    match m
    case PublishesRoute(h, _) => h == g
    case Cools(h) => h == g
    case Takes(h, _) => h == g
    case Halts(h) => h == g
    case Exits(h) => h == g
    case ClosesLog(h) => h == g
    case Leaves(h) => h == g
    case Drops(h) => h == g
    case Syncs(h, _) => h == g
    case Aborts(h) => h == g
    case _ => false
  }

  predicate Kept(s: H.System, after: H.System, g: H.Generation) {
    g in s.sups && g in after.sups && after.sups[g].stage == s.sups[g].stage && s.nextGeneration <= after.nextGeneration
  }

  lemma SendKeeps(s: H.System, h: H.Generation, c: Command, g: H.Generation)
    requires g in s.sups && h in s.sups
    ensures Kept(s, H.SendNow(s, h, c).0, g)
  {
  }

  lemma CallersKeep(s: H.System, g: H.Generation, m: H.Move)
    requires g in s.sups && g < s.nextGeneration && H.CanMove(s, m)
    requires m.Registers? || m.Sends? || m.StopsRoute? || m.SendsStop?
    ensures Kept(s, H.Next(s, m), g)
  {
    match m
    case Registers(opener) =>
    case Sends(thread, c) =>
      if thread in s.threads && s.threads[thread].child.Some? && s.threads[thread].child.value in s.sups {
        SendKeeps(s, s.threads[thread].child.value, c, g);
        hide H.SendNow;
      }
    case StopsRoute(thread, c) =>
      if thread in s.routes && s.routes[thread].child.Some? && s.routes[thread].child.value in s.sups {
        SendKeeps(s, s.routes[thread].child.value, c, g);
        hide H.SendNow;
      }
    case SendsStop(h, c) =>
      SendKeeps(s, h, c, g);
      hide H.SendNow;
  }

  lemma StagesKeep(s: H.System, g: H.Generation, m: H.Move)
    requires g in s.sups && H.CanMove(s, m) && !OwnSection(m, g)
    requires m.Aborts? || m.Cools? || m.Halts? || m.Exits? || m.ClosesLog? || m.Drops?
    ensures Kept(s, H.Next(s, m), g)
  {
    hide H.CoolRoutes, H.WasReaped;
  }

  lemma TakesKeep(s: H.System, g: H.Generation, m: H.Move)
    requires g in s.sups && H.CanMove(s, m) && !OwnSection(m, g) && m.Takes?
    ensures Kept(s, H.Next(s, m), g)
  {
    hide H.WasReaped;
  }

  lemma EntriesKeep(s: H.System, g: H.Generation, m: H.Move)
    requires g in s.sups && H.CanMove(s, m) && !OwnSection(m, g)
    requires m.PublishesRoute? || m.Receives? || m.Leaves? || m.Syncs?
    ensures Kept(s, H.Next(s, m), g)
  {
    hide H.WasReaped;
  }

  lemma MapsKeep(s: H.System, g: H.Generation, m: H.Move)
    requires g in s.sups && H.CanMove(s, m)
    requires m.Handshaken? || m.Discards? || m.Claims? || m.Forgets? || m.ForgetsRoute? || m.RaisesShutdown?
          || m.DrainsThreads? || m.DrainsRoutes?
    ensures Kept(s, H.Next(s, m), g)
  {
    hide H.ChildrenOf, H.SlotLogs;
  }

  lemma OthersLeaveIt(s: H.System, g: H.Generation, p: Place, m: H.Move)
    requires Stands(s, g, p) && !OwnSection(m, g) && g < s.nextGeneration
    ensures Stands(H.Next(s, m), g, p) && g < H.Next(s, m).nextGeneration
  {
    if H.CanMove(s, m) {
      if m.Registers? || m.Sends? || m.StopsRoute? || m.SendsStop? {
        CallersKeep(s, g, m);
      } else if m.Handshaken? || m.Discards? || m.Claims? || m.Forgets? || m.ForgetsRoute? || m.RaisesShutdown?
             || m.DrainsThreads? || m.DrainsRoutes? {
        MapsKeep(s, g, m);
      } else if m.Takes? {
        TakesKeep(s, g, m);
      } else if m.PublishesRoute? || m.Receives? || m.Leaves? || m.Syncs? {
        EntriesKeep(s, g, m);
      } else {
        StagesKeep(s, g, m);
      }
      hide H.Next, H.CanMove, OwnSection;
    } else {
      hide H.CanMove;
    }
  }

  // ---- A supervisor among the other tasks ----------------------------------------------------

  /** The supervisor does something, or some other task takes a step of its own. */
  datatype Beat = Does(o: Obs) | Other(m: H.Move)

  function Deeds(beats: seq<Beat>): seq<Obs> {
    if beats == [] then []
    else (if beats[0].Does? then [beats[0].o] else []) + Deeds(beats[1..])
  }

  function BeatMoves(p: Place, beat: Beat, g: H.Generation, model: ModelRef): seq<H.Move> {
    if beat.Does? then SectionsOf(p, beat.o, g, model) else [beat.m]
  }

  function After(p: Place, beat: Beat): Place {
    if beat.Does? then Goes(p, beat.o) else p
  }

  function Played(s: H.System, p: Place, beats: seq<Beat>, g: H.Generation, model: ModelRef): H.System
    decreases |beats|
  {
    if beats == [] then s
    else Played(H.Run(s, BeatMoves(p, beats[0], g, model)), After(p, beats[0]), beats[1..], g, model)
  }

  /** At every beat the supervisor finds the system as it is, and nobody else takes its sections. */
  predicate Told(s: H.System, p: Place, beats: seq<Beat>, g: H.Generation, model: ModelRef)
    decreases |beats|
  {
    beats == [] ||
    (&& (if beats[0].Does? then Found(s, p, beats[0].o, g) else !OwnSection(beats[0].m, g))
     && Told(H.Run(s, BeatMoves(p, beats[0], g, model)), After(p, beats[0]), beats[1..], g, model))
  }

  /** Every section is one the system allows when it is taken. */
  predicate Lawful(s: H.System, p: Place, beats: seq<Beat>, g: H.Generation, model: ModelRef)
    decreases |beats|
  {
    beats == [] ||
    (&& (beats[0].Does? ==> AllCanMove(s, SectionsOf(p, beats[0].o, g, model)))
     && Lawful(H.Run(s, BeatMoves(p, beats[0], g, model)), After(p, beats[0]), beats[1..], g, model))
  }

  lemma SectionsNumber(s: H.System, p: Place, o: Obs, g: H.Generation, model: ModelRef)
    requires Stands(s, g, p) && g < s.nextGeneration
    ensures g < H.Run(s, SectionsOf(p, o, g, model)).nextGeneration
  {
    var moves := SectionsOf(p, o, g, model);
    hide Goes, Stands;
    OneSection(s, H.RaisesShutdown);
    if |moves| == 1 {
      OneSection(s, moves[0]);
      assert moves == [moves[0]];
      SectionNumbers(s, moves[0], g);
    } else if |moves| == 2 {
      OneSection(H.Next(s, moves[0]), moves[1]);
      assert moves[1..] == [moves[1]];
      assert H.Run(s, moves) == H.Run(H.Next(s, moves[0]), moves[1..]);
      SectionNumbers(s, moves[0], g);
      SectionNumbers(H.Next(s, moves[0]), moves[1], g);
    }
  }

  lemma SectionNumbers(s: H.System, m: H.Move, g: H.Generation)
    requires OwnSection(m, g)
    ensures H.Next(s, m).nextGeneration == s.nextGeneration
  {
    hide H.CoolRoutes, H.WasReaped, H.Holds;
  }

  /** Whatever the other tasks do in between, every section a supervisor takes is one the system
      allows, and its child stands where its log leads. */
  lemma {:induction false} BeatsAreLawful(s: H.System, p: Place, beats: seq<Beat>, g: H.Generation, model: ModelRef)
    requires Stands(s, g, p) && g < s.nextGeneration
    requires Told(s, p, beats, g, model) && !Onward(p, Deeds(beats)).Astray?
    ensures Lawful(s, p, beats, g, model)
    ensures Stands(Played(s, p, beats, g, model), g, Onward(p, Deeds(beats)))
    decreases |beats|
  {
    hide H.Run, H.Next, Stands, Found, OwnSection, Goes, SectionsOf, AllCanMove;
    if beats != [] {
      var next := H.Run(s, BeatMoves(p, beats[0], g, model));
      match beats[0]
      case Does(o) =>
        assert Deeds(beats) == [o] + Deeds(beats[1..]);
        assert Onward(p, Deeds(beats)) == Onward(Goes(p, o), Deeds(beats[1..]));
        if Goes(p, o).Astray? {
          AstrayStays(Deeds(beats[1..]));
        }
        SectionsLand(s, p, o, g, model);
        SectionsNumber(s, p, o, g, model);
        BeatsAreLawful(next, Goes(p, o), beats[1..], g, model);
      case Other(m) =>
        assert Deeds(beats) == Deeds(beats[1..]);
        OneSection(s, m);
        OthersLeaveIt(s, g, p, m);
        BeatsAreLawful(next, p, beats[1..], g, model);
    }
  }
}
