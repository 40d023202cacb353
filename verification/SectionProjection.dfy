/** Every supervisor among the other tasks: the sections it takes are those `Harness` lets its child take. */
module SectionProjection {
  import opened Protocol
  import opened Trace
  import opened Steps
  import opened Invariant
  import opened Safety
  import opened Sections
  import opened Views
  import opened AskProjection
  import H = Harness

  // ---- Where a supervisor stands among its sections ------------------------------------------

  lemma StepPlaced(s: State, t: Steps.Turn)
    requires Placed(s) && Standing(s)
    ensures Placed(Step(s, t))
  {
    hide Step, Placed, Viewed, StepActs;
    StepProjects(s, t, CoreFor(s));
  }

  lemma {:induction false} RunPlaced(s: State, turns: seq<Steps.Turn>)
    requires Good(s, multiset{}) && Placed(s)
    ensures Placed(Run(s, turns))
    decreases |turns|
  {
    hide Good, Step, Placed, Standing;
    if turns != [] {
      GoodStands(s);
      StepKeeps(s, turns[0]);
      StepPlaced(s, turns[0]);
      RunPlaced(Step(s, turns[0]), turns[1..]);
    }
  }

  lemma ReachableIsPlaced(s: State)
    requires Reachable(s)
    ensures Placed(s)
  {
    var spawn: Spawn, turns: seq<Steps.Turn> :|
      (forall id <- spawn.inherited :: id < spawn.firstId) && s == Run(Born(spawn), turns);
    hide Good, Run, Spawned, Placed, Born;
    BornIsSpawned(spawn);
    SpawnedIsGood(spawn.model, spawn.idleTimeout, spawn.inherited, spawn.firstId, spawn.now, spawn.mapper);
    BornAgrees(spawn);
    RunPlaced(Born(spawn), turns);
  }

  lemma {:induction false} WalkIsViewed(log: seq<Obs>)
    ensures Walk(log) == Viewed(log).place
    decreases |log|
  {
    hide Goes;
    if log != [] {
      var rest, o := log[..|log| - 1], log[|log| - 1];
      WalkIsViewed(rest);
      OnwardAppend(At(H.Live), rest, o);
      assert log == rest + [o];
      AnswersGoNowhere(Walk(rest), o);
    }
  }

  lemma AnswersGoNowhere(p: Place, o: Obs)
    ensures o.AskAnswered? ==> Goes(p, o) == p
  {
  }

  lemma {:induction false} OnwardSplits(p: Place, first: seq<Obs>, rest: seq<Obs>)
    ensures Onward(p, first + rest) == Onward(Onward(p, first), rest)
    decreases |first|
  {
    hide Goes;
    if first == [] {
      assert first + rest == rest;
    } else {
      assert (first + rest)[0] == first[0] && (first + rest)[1..] == first[1..] + rest;
      OnwardSplits(Goes(p, first[0]), first[1..], rest);
    }
  }

  /** A supervisor's own stage, and its child's in the system. */
  predicate StagesAgree(s: State, stage: H.Stage) {
    if s.life.Gone? then stage.Gone? else stage == StageOf(s.life, s.phase)
  }

  /** Whatever the other tasks do between the sections of a supervisor, each section it takes is one the
      system lets its child take, and the child stands in the system where the supervisor stands. */
  lemma KeepsToItsSections(s: State, beats: seq<Beat>, system: H.System, g: H.Generation, model: ModelRef)
    requires Reachable(s) && Deeds(beats) <= s.log
    requires Stands(system, g, At(H.Live)) && g < system.nextGeneration
    requires Told(system, At(H.Live), beats, g, model)
    ensures Lawful(system, At(H.Live), beats, g, model)
    ensures var after := Played(system, At(H.Live), beats, g, model);
            && Stands(after, g, Walk(Deeds(beats)))
            && (Deeds(beats) == s.log ==> StagesAgree(s, after.sups[g].stage))
  {
    hide Reachable, Stands, Told, Lawful, Played, Viewed, Goes;
    ReachableIsPlaced(s);
    WalkIsViewed(s.log);
    var rest := s.log[|Deeds(beats)|..];
    assert s.log == Deeds(beats) + rest;
    OnwardSplits(At(H.Live), Deeds(beats), rest);
    if Walk(Deeds(beats)).Astray? {
      AstrayStays(rest);
    }
    BeatsAreLawful(system, At(H.Live), beats, g, model);
    StandsWhere(Played(system, At(H.Live), beats, g, model), g, Walk(Deeds(beats)));
  }

  lemma StandsWhere(system: H.System, g: H.Generation, p: Place)
    requires Stands(system, g, p)
    ensures g in system.sups && !p.Astray? && system.sups[g].stage == p.stage
  {
  }
}
