/** Every operation does what its event obliges it to do, at once and in order, and so does every run. */
module DutiesKept {
  import opened Protocol
  import opened Trace
  import opened Steps
  import D = Duties
  import opened Invariant
  import opened Preservation
  import opened Safety
  import Supervision

  // ---- The watch and the supervisor ----------------------------------------------------------

  function AsCaller(waiter: Waiter): D.Caller {
    match waiter
    case UnitWaiter(reply) => D.Caller(Some(reply), false)
    case ValueWaiter(reply) => D.Caller(Some(reply), true)
    case TaskWaiter(reply) => D.Caller(Some(reply), false)
    case NobodyWaits => D.Caller(None, false)
  }

  function Callers(waiters: map<RequestId, Waiter>): map<RequestId, D.Caller> {
    map id | id in waiters :: AsCaller(waiters[id])
  }

  function StartedBy(setup: TurnSetup): D.Start {
    D.Start(setup.line, setup.turn, setup.model, setup.settings, setup.notice, setup.reply)
  }

  function AsUnderway(setup: TurnSetup): D.Underway {
    D.Underway(StartedBy(setup), setup.stage, setup.id, setup.sent, setup.deadline, setup.budget,
               setup.modelChange.Some?, setup.effortChange.Some?)
  }

  /** What a hand-off changes is what its turn asks for. */
  predicate Honest(setup: TurnSetup) {
    && (setup.modelChange.Some? ==> setup.modelChange == setup.settings.model)
    && (setup.effortChange.Some? ==> setup.effortChange == setup.settings.effort)
  }

  predicate InLoop(s: State) {
    s.life.Early? || s.life.Looping?
  }

  predicate HaltFits(halt: D.Halt, phase: Phase, inFlight: bool, reaped: bool) {
    match phase
    case Serving => halt == D.Ongoing && !reaped
    case Halting(_, _, Interrupting(_, _, until), _) => halt == D.Interrupted(until) && !inFlight
    case Halting(_, _, Draining(until), _) => halt == D.Shut(until) && !inFlight
  }

  /** The watch knows what the supervisor holds. */
  predicate Knows(w: D.Watch, s: State) {
    && w.ok && !w.leaving
    && w.over == s.life.Gone?
    && (!s.life.Gone? ==>
          && w.nextId == s.nextId
          && w.callers == Callers(s.waiters)
          && w.held == D.Settings(s.mode, s.model, s.effort)
          && w.withdrawn == s.withdrawn
          && w.reaped == s.reaped
          && w.underway == (if s.setup.Some? then Some(AsUnderway(s.setup.value)) else None)
          && (s.setup.Some? ==> Honest(s.setup.value)))
  }

  /** And how far its stop is. */
  predicate Fits(w: D.Watch, s: State) {
    Knows(w, s) && (InLoop(s) ==> HaltFits(w.halt, s.phase, s.setup.Some?, s.reaped))
  }

  /** Within an operation: what is still due. */
  predicate Amid(s: State, due: D.Agenda) {
    Fits(D.Watched(s.log), s) && D.Watched(s.log).agenda == due
  }

  /** Between two operations nothing is due. */
  predicate Kept(s: State) {
    Amid(s, D.Nothing)
  }

  lemma Adds(s: State, o: Obs)
    ensures D.Watched(Emit(s, o).log) == D.Follow(D.Watched(s.log), o)
    ensures Emit(s, o) == s.(log := s.log + [o])
  {
    assert (s.log + [o])[..|s.log|] == s.log;
  }

  /** What is due is done. */
  lemma Does(s: State, base: State, o: Obs)
    requires base.log == s.log && D.Watched(s.log).agenda.Then? && D.Watched(s.log).agenda.first == o
    ensures var w := D.Watched(s.log);
            D.Watched(Emit(base, o).log) == D.Sees(w, o).(ok := w.ok, agenda := w.agenda.rest)
    ensures Emit(base, o) == base.(log := base.log + [o])
  {
    Adds(base, o);
    hide D.Watched, D.Sees;
  }

  /** Something happens by itself. */
  lemma Happens(s: State, base: State, o: Obs)
    requires base.log == s.log && D.Watched(s.log).agenda.Nothing? && D.Spontaneous(D.Watched(s.log), o)
    ensures var w := D.Watched(s.log);
            D.Watched(Emit(base, o).log) == D.Notices(w, o).(ok := w.ok, agenda := D.Owed(w, o))
    ensures Emit(base, o) == base.(log := base.log + [o])
  {
    Adds(base, o);
    hide D.Watched, D.Notices, D.Owed, D.Spontaneous;
  }

  /** What a change that shows nothing keeps. */
  lemma BesideKept(s: State, after: State)
    requires Kept(s)
    requires after == s.(clock := after.clock, mapper := after.mapper, interruptSent := after.interruptSent,
                         failed := after.failed, awaitingSince := after.awaitingSince, lastLine := after.lastLine,
                         idleSince := after.idleSince, commandsClosed := after.commandsClosed,
                         abandoned := after.abandoned)
    ensures Kept(after)
  {
    hide D.Watched;
  }

  /** The last thing due is a caller's answer. */
  lemma Told(s: State, reply: Token, outcome: Outcome)
    requires Amid(s, D.Tell(reply, outcome))
    ensures Kept(Settle(s, reply, outcome))
  {
    hide D.Watched, Emit, HaltFits, Callers;
    Does(s, s, Settled(reply, outcome));
  }

  /** An event that obliges to nothing and tells nothing. */
  lemma PlainKept(s: State, o: Obs)
    requires Kept(s)
    requires var w := D.Watched(s.log);
             D.Spontaneous(w, o) && D.Notices(w, o) == w && D.Owed(w, o).Nothing?
    ensures Kept(Emit(s, o))
  {
    Happens(s, s, o);
    hide D.Watched, D.Spontaneous, D.Notices, D.Owed, Emit;
  }

  /** Events of a running loop that oblige to nothing. */
  predicate Uneventful(o: Obs, model: ModelRef, reaped: bool) {
    || (o.Killed? && !o.grace) || (o.EntryReleased? && o.model == model) || (o.OutputDropped? && reaped)
    || o.LoopTop? || o.LineRead? || o.RoutesCooled? || o.ReapCancelled? || o.Unmatched?
    || o.Published? || o.AskRecorded? || o.RoutePublished? || o.MapperWrote? || o.RouteLeft? || o.AsksForgotten?
  }

  lemma IdleIsPlain(w: D.Watch, o: Obs)
    requires !w.over && !w.leaving && Uneventful(o, w.held.model, w.reaped)
    ensures D.Spontaneous(w, o) && D.Notices(w, o) == w && D.Owed(w, o).Nothing?
  {
  }

  lemma PlainKeptHere(s: State, o: Obs)
    requires Kept(s) && InLoop(s) && Uneventful(o, s.model, s.reaped)
    ensures Kept(Emit(s, o))
  {
    LoopFacts(s);
    IdleIsPlain(D.Watched(s.log), o);
    hide Kept, Emit, D.Watched, D.Spontaneous, D.Notices, D.Owed, Uneventful;
    PlainKept(s, o);
  }

  lemma LoopFacts(s: State)
    requires Kept(s) && InLoop(s)
    ensures var w := D.Watched(s.log); !w.over && !w.leaving && w.held.model == s.model && w.reaped == s.reaped
  {
    hide D.Watched, Callers;
  }

  // ---- The hand-off --------------------------------------------------------------------------

  /** The hand-off is in hand and `due` is what it is to do. */
  predicate InHand(s: State, setup: TurnSetup, due: D.Agenda) {
    && Amid(s, due) && s.setup.None? && InLoop(s) && s.phase.Serving?
    && D.Watched(s.log).hand == Some(AsUnderway(setup)) && Honest(setup)
  }

  /** The request as it goes out. */
  function Sent(s: State, setup: TurnSetup, stage: SetupStage, w: World): Obs {
    SettingsSent(setup.reply, stage, WishOf(setup, stage), s.nextId, s.clock + w.writing,
                 Min(s.clock + w.writing + CONTROL_TIMEOUT, setup.budget), setup.budget, w.writeOk)
  }

  /** What a stage asks for is what the turn asks for. */
  predicate AsksFor(setup: TurnSetup, stage: SetupStage) {
    && Honest(setup)
    && (stage == Model ==> setup.modelChange.Some?)
    && (stage == Effort ==> setup.effortChange.Some?)
  }

  lemma SentIsDue(s: State, setup: TurnSetup, stage: SetupStage, w: World, scene: Scene)
    requires scene.at == s.clock && scene.w == w && AsksFor(setup, stage)
    ensures D.Send(s.nextId, AsUnderway(setup), stage, scene)
            == D.Then(Sent(s, setup, stage, w),
                      if w.writeOk then D.Nothing else D.Tell(setup.reply, Failed(WriteFailed)))
  {
  }

  lemma SendGoes(s: State, setup: TurnSetup, stage: SetupStage, w: World)
    requires w.writeOk && AsksFor(setup, stage)
    requires InHand(s, setup, D.Last(Sent(s, setup, stage, w)))
    ensures Kept(SendSetup(s, setup, stage, w).state)
  {
    hide D.Watched, Emit, Min, Callers, WishOf;
    Does(s, Passed(s, w.writing).(nextId := s.nextId + 1), Sent(s, setup, stage, w));
  }

  lemma SendFails(s: State, setup: TurnSetup, stage: SetupStage, w: World)
    requires !w.writeOk
    requires InHand(s, setup, D.Then(Sent(s, setup, stage, w), D.Tell(setup.reply, Failed(WriteFailed))))
    ensures Kept(SendSetup(s, setup, stage, w).state)
  {
    hide D.Watched, Emit, Min, Callers, WishOf, HaltFits, Settle;
    var base := Passed(s, w.writing).(nextId := s.nextId + 1);
    Does(s, base, Sent(s, setup, stage, w));
    Told(Emit(base, Sent(s, setup, stage, w)), setup.reply, Failed(WriteFailed));
  }

  lemma SendKept(s: State, setup: TurnSetup, stage: SetupStage, w: World, scene: Scene)
    requires scene.at == s.clock && scene.w == w && AsksFor(setup, stage)
    requires InHand(s, setup, D.Send(s.nextId, AsUnderway(setup), stage, scene))
    ensures Kept(SendSetup(s, setup, stage, w).state)
  {
    hide InHand, Kept;
    SentIsDue(s, setup, stage, w, scene);
    if w.writeOk {
      SendGoes(s, setup, stage, w);
    } else {
      SendFails(s, setup, stage, w);
    }
  }

  /** What is due and tells the watch nothing. */
  lemma DoesPlain(s: State, base: State, o: Obs, rest: D.Agenda)
    requires Amid(s, D.Then(o, rest)) && D.Sees(D.Watched(s.log), o) == D.Watched(s.log)
    requires base == s.(clock := base.clock, mapper := base.mapper, interruptSent := base.interruptSent)
    ensures Amid(Emit(base, o), rest)
  {
    hide D.Watched, D.Sees, Emit, Callers;
    Does(s, base, o);
  }

  lemma StartedKept(s: State, turn: TurnId, rest: D.Agenda)
    requires Amid(s, D.Then(TurnStarted(turn), rest)) && InLoop(s) && s.phase.Serving?
    ensures Amid(Publish(s.(withdrawn := {}, mapper := s.mapper.(active := Some(turn))), TurnStarted(turn)), rest)
  {
    hide D.Watched, Emit, Callers;
    Does(s, s.(withdrawn := {}, mapper := s.mapper.(active := Some(turn))), TurnStarted(turn));
  }

  lemma OpenedKept(s: State, turn: TurnId, notice: Option<string>, rest: D.Agenda)
    requires Amid(s, D.Opening(turn, notice, rest)) && InLoop(s) && s.phase.Serving? && s.setup.None?
    ensures Amid(BeginTurn(s, turn, notice), rest)
  {
    var begun := Publish(s.(withdrawn := {}, mapper := s.mapper.(active := Some(turn))), TurnStarted(turn));
    StartedKept(s, turn, if notice.Some? then D.Then(Noticed(turn, notice.value), rest) else rest);
    ServingIsNotReaped(s, D.Opening(turn, notice, rest));
    if notice.Some? {
      DoesPlain(begun, begun, Noticed(turn, notice.value), rest);
    }
  }

  lemma ServingIsNotReaped(s: State, due: D.Agenda)
    requires Amid(s, due) && InLoop(s) && s.phase.Serving?
    ensures !s.reaped
  {
    hide D.Watched, Callers;
  }

  lemma GoKept(s: State, setup: TurnSetup, w: World, scene: Scene)
    requires scene.w == w && scene.active == s.mapper.active
    requires Amid(s, D.Go(StartedBy(setup), D.Settings(s.mode, s.model, s.effort), scene))
    requires InLoop(s) && s.phase.Serving? && s.setup.None?
    ensures Kept(FinishTurnSetup(s, setup, w).state)
  {
    hide Amid, BeginTurn, D.Opening, Emit;
    if w.gaveUp {
      Told(s, setup.reply, Dropped);
    } else if s.mapper.active.Some? {
      Told(s, setup.reply, Failed(ThreadBusy));
    } else {
      var o := UserLine(setup.reply, setup.turn, setup.line, setup.settings, s.mode, s.model, s.effort,
                        s.mapper.active, HandOffs(s), w.writeOk);
      OpenedKept(s, setup.turn, setup.notice, D.Then(o, D.Tell(setup.reply, Written(w))));
      var begun := BeginTurn(s, setup.turn, setup.notice);
      DoesPlain(begun, Passed(begun, w.writing), o, D.Tell(setup.reply, Written(w)));
      Told(Emit(Passed(begun, w.writing), o), setup.reply, Written(w));
    }
  }

  // ---- The answer to its request -------------------------------------------------------------

  predicate Underway(s: State) {
    Kept(s) && InLoop(s) && s.setup.Some?
  }

  function Taken(s: State, payload: Payload, w: World): State
    requires s.setup.Some?
  {
    Emit(s.(setup := None), Answered(s.setup.value.id, payload, SceneOf(s, w)))
  }

  lemma UnderwayServes(s: State)
    requires Underway(s)
    ensures s.phase.Serving? && !s.reaped && Honest(s.setup.value)
    ensures var w := D.Watched(s.log);
            && w.underway == Some(AsUnderway(s.setup.value)) && w.nextId == s.nextId && w.halt.Ongoing?
            && w.held == D.Settings(s.mode, s.model, s.effort) && w.ok && !w.over && !w.leaving
  {
    hide D.Watched, Callers;
  }

  /** The watch once the answer came in. */
  lemma TakenSeen(s: State, payload: Payload, w: World)
    requires Underway(s)
    ensures var was := D.Watched(s.log);
            var u := AsUnderway(s.setup.value);
            D.Watched(Taken(s, payload, w).log)
            == (if !payload.Success? then was.(underway := None)
                else was.(underway := None, held := D.Holds(was.held, u, payload),
                          hand := Some(if u.stage.Mode? then D.Chosen(was.held, u) else u)))
               .(agenda := D.Handed(was, u, payload, SceneOf(s, w)))
  {
    UnderwayServes(s);
    hide D.Watched, D.Handed, D.Holds, D.Chosen, Emit, AsUnderway;
    Happens(s, s.(setup := None), Answered(s.setup.value.id, payload, SceneOf(s, w)));
  }

  lemma TakenRefused(s: State, payload: Payload, w: World)
    requires Underway(s) && !payload.Success?
    ensures Amid(Taken(s, payload, w),
                 D.Tell(s.setup.value.reply, Failed(StageRefused(s.setup.value.stage, payload))))
  {
    UnderwayServes(s);
    TakenSeen(s, payload, w);
    hide D.Watched, Emit, Callers;
    Adds(s.(setup := None), Answered(s.setup.value.id, payload, SceneOf(s, w)));
  }

  /** The model or the effort is in. */
  lemma TakenOn(s: State, payload: Payload, w: World)
    requires Underway(s) && payload.Success?
    requires s.setup.value.stage == Model || s.setup.value.stage == Effort
    ensures var setup := s.setup.value;
            var next := if setup.stage == Model && setup.effortChange.Some? then Effort else ReadBack;
            InHand(Taken(s, payload, w), setup, D.Send(s.nextId, AsUnderway(setup), next, SceneOf(s, w)))
            && AsksFor(setup, next)
  {
    UnderwayServes(s);
    TakenSeen(s, payload, w);
    hide D.Watched, Emit, Callers, D.Send, D.Chosen;
    Adds(s.(setup := None), Answered(s.setup.value.id, payload, SceneOf(s, w)));
  }

  lemma DecidesAlike(s: State, setup: TurnSetup)
    ensures D.Chosen(D.Settings(s.mode, s.model, s.effort), AsUnderway(setup)) == AsUnderway(Decide(s, setup))
    ensures Honest(Decide(s, setup))
  {
  }

  lemma TakenMode(s: State, payload: Payload, w: World)
    requires Underway(s) && payload.Success? && s.setup.value.stage == Mode
    ensures var setup := s.setup.value;
            InHand(Taken(s, payload, w).(mode := setup.settings.mode), Decide(s, setup),
                   D.ModeDue(D.Watched(s.log), AsUnderway(setup), payload, SceneOf(s, w)))
  {
    UnderwayServes(s);
    TakenSeen(s, payload, w);
    DecidesAlike(s, s.setup.value);
    hide D.Watched, Emit, Callers, D.ModeDue, D.Chosen, Decide, Honest;
    Adds(s.(setup := None), Answered(s.setup.value.id, payload, SceneOf(s, w)));
  }

  lemma ModeKept(s: State, payload: Payload, w: World)
    requires Underway(s) && payload.Success? && s.setup.value.stage == Mode
    ensures Kept(AfterMode(Taken(s, payload, w), s.setup.value, w).state)
  {
    var setup := s.setup.value;
    var decided := Decide(s, setup);
    var now := Taken(s, payload, w).(mode := setup.settings.mode);
    UnderwayServes(s);
    TakenMode(s, payload, w);
    DecidesAlike(s, setup);
    TakenFields(s, payload, w);
    ModeGoesOn(s, payload, w, now, decided);
    hide InHand, Kept, D.Watched, Honest, D.ModeDue, SendSetup, FinishTurnSetup, Taken;
  }

  lemma TakenFields(s: State, payload: Payload, w: World)
    requires s.setup.Some?
    ensures var taken := Taken(s, payload, w);
            && taken.model == s.model && taken.effort == s.effort && taken.mode == s.mode
            && taken.clock == s.clock && taken.nextId == s.nextId && taken.mapper == s.mapper
            && taken.setup.None? && taken.life == s.life && taken.phase == s.phase && taken.reaped == s.reaped
  {
  }

  lemma ModeGoesOn(s: State, payload: Payload, w: World, now: State, decided: TurnSetup)
    requires Underway(s) && payload.Success? && s.setup.value.stage == Mode
    requires now == Taken(s, payload, w).(mode := s.setup.value.settings.mode)
    requires decided == Decide(s, s.setup.value)
    requires InHand(now, decided, D.ModeDue(D.Watched(s.log), AsUnderway(s.setup.value), payload, SceneOf(s, w)))
    ensures if decided.modelChange.Some? then Kept(SendSetup(now, decided, Model, w).state)
            else if decided.effortChange.Some? then Kept(SendSetup(now, decided, Effort, w).state)
            else Kept(FinishTurnSetup(now, decided, w).state)
  {
    UnderwayServes(s);
    TakenFields(s, payload, w);
    DecidesAlike(s, s.setup.value);
    var scene := SceneOf(s, w);
    hide Kept, D.Watched, SendSetup, FinishTurnSetup, Taken, D.Send, D.Go, Decide, D.Chosen, Underway;
    if decided.modelChange.Some? {
      SendKept(now, decided, Model, w, scene);
    } else if decided.effortChange.Some? {
      SendKept(now, decided, Effort, w, scene);
    } else {
      GoKept(now, decided, w, scene);
    }
  }

  /** What the supervisor tracks after an accepted read-back, its entry not yet synced. */
  function Adopted(s: State, setup: TurnSetup, payload: Payload): State
    requires payload.Success?
  {
    var model := if setup.modelChange.Some? then setup.model else s.model;
    s.(model := model.(effort := payload.appliedEffort), effort := payload.appliedEffort)
  }

  /** What is due after an accepted read-back and the sync of the entry. */
  function AfterSync(s: State, setup: TurnSetup, payload: Payload, wanted: string, scene: Scene): D.Agenda
    requires payload.Success?
  {
    if setup.effortChange.Some? && payload.appliedEffort != setup.effortChange
    then D.Tell(setup.reply, Failed(EffortNotTaken(setup.effortChange.value, wanted)))
    else D.Go(StartedBy(setup), D.Settings(s.mode, s.model, s.effort), scene)
  }

  lemma AppliesAlike(s: State, setup: TurnSetup, payload: Payload)
    requires payload.Success?
    ensures var held := D.Settings(s.mode, s.model, s.effort);
            && D.Applied(held, AsUnderway(setup), payload) == ModelApplied(s, setup, payload)
            && D.Wanted(held, AsUnderway(setup)) == WantedModel(s, setup)
  {
  }

  lemma TakenReadBack(s: State, payload: Payload, w: World)
    requires Underway(s) && payload.Success? && s.setup.value.stage == ReadBack
    ensures var taken, setup := Taken(s, payload, w), s.setup.value;
            var due := D.ReadBackDue(D.Watched(s.log), AsUnderway(setup), payload, SceneOf(s, w));
            if ModelApplied(s, setup, payload) then Amid(Adopted(taken, setup, payload), due) else Amid(taken, due)
  {
    UnderwayServes(s);
    TakenSeen(s, payload, w);
    AppliesAlike(s, s.setup.value, payload);
    hide D.Watched, Emit, Callers, D.ReadBackDue, D.Applied, ModelApplied;
    Adds(s.(setup := None), Answered(s.setup.value.id, payload, SceneOf(s, w)));
  }

  lemma ReadBackIsDue(s: State, payload: Payload, w: World)
    requires Underway(s) && payload.Success? && s.setup.value.stage == ReadBack
    ensures var taken, setup := Taken(s, payload, w), s.setup.value;
            var wanted, held := WantedModel(s, setup), Adopted(taken, setup, payload);
            D.ReadBackDue(D.Watched(s.log), AsUnderway(setup), payload, SceneOf(s, w))
            == if !ModelApplied(s, setup, payload) then
                 D.Tell(setup.reply, Failed(WrongModel(payload.appliedModel, wanted)))
               else
                 var rest := AfterSync(held, setup, payload, wanted, SceneOf(s, w));
                 if w.holdsEntry then D.Then(EntrySynced(held.model), rest) else rest
  {
    UnderwayServes(s);
    TakenFields(s, payload, w);
    AppliesAlike(s, s.setup.value, payload);
    hide D.Watched, Taken, D.Applied, D.Wanted, ModelApplied, WantedModel, D.Go;
  }

  lemma ReadBackKept(s: State, payload: Payload, w: World)
    requires Underway(s) && payload.Success? && s.setup.value.stage == ReadBack
    ensures Kept(AfterReadBack(Taken(s, payload, w), s.setup.value, payload, w).state)
  {
    var setup, taken := s.setup.value, Taken(s, payload, w);
    UnderwayServes(s);
    TakenFields(s, payload, w);
    TakenReadBack(s, payload, w);
    ReadBackIsDue(s, payload, w);
    hide Amid, D.Watched, Taken, D.ReadBackDue, Underway, D.Go, FinishTurnSetup, Emit, AfterSync;
    var wanted, held := WantedModel(s, setup), Adopted(taken, setup, payload);
    if !ModelApplied(s, setup, payload) {
      Told(taken, setup.reply, Failed(WrongModel(payload.appliedModel, wanted)));
    } else {
      var rest := AfterSync(held, setup, payload, wanted, SceneOf(s, w));
      if w.holdsEntry {
        DoesPlain(held, held, EntrySynced(held.model), rest);
      }
      AdoptedKept(taken, setup, payload, w, Adopt(taken, setup, payload, w), wanted, SceneOf(s, w));
    }
  }

  lemma AdoptedKept(taken: State, setup: TurnSetup, payload: Payload, w: World, held: State, wanted: string,
                    scene: Scene)
    requires payload.Success? && held == Adopt(taken, setup, payload, w)
    requires scene.w == w && scene.active == taken.mapper.active
    requires InLoop(taken) && taken.phase.Serving? && taken.setup.None?
    requires Amid(held, AfterSync(Adopted(taken, setup, payload), setup, payload, wanted, scene))
    ensures if setup.effortChange.Some? && payload.appliedEffort != setup.effortChange
            then Kept(Settle(held, setup.reply, Failed(EffortNotTaken(setup.effortChange.value, wanted))))
            else Kept(FinishTurnSetup(held, setup, w).state)
  {
    hide Amid, D.Go, FinishTurnSetup;
    if setup.effortChange.Some? && payload.appliedEffort != setup.effortChange {
      Told(held, setup.reply, Failed(EffortNotTaken(setup.effortChange.value, wanted)));
    } else {
      GoKept(held, setup, w, scene);
    }
  }

  lemma SetupResponseKept(s: State, payload: Payload, w: World)
    requires Underway(s)
    ensures Kept(OnSetupResponse(s, payload, w).state)
  {
    hide Amid, InHand, Emit, AfterMode, AfterReadBack, SendSetup, StageRefused, D.Send;
    var setup := s.setup.value;
    if !payload.Success? {
      TakenRefused(s, payload, w);
      Told(Taken(s, payload, w), setup.reply, Failed(StageRefused(setup.stage, payload)));
    } else {
      TakenFields(s, payload, w);
      match setup.stage
      case Mode => ModeKept(s, payload, w);
      case ReadBack => ReadBackKept(s, payload, w);
      case _ =>
        TakenOn(s, payload, w);
        SendKept(Taken(s, payload, w), setup,
                 if setup.stage == Model && setup.effortChange.Some? then Effort else ReadBack, w, SceneOf(s, w));
    }
  }

  // ---- Commands ------------------------------------------------------------------------------

  lemma CallersAdded(waiters: map<RequestId, Waiter>, id: RequestId, waiter: Waiter)
    ensures Callers(waiters[id := waiter]) == Callers(waiters)[id := AsCaller(waiter)]
  {
  }

  lemma CallersRemoved(waiters: map<RequestId, Waiter>, id: RequestId)
    ensures Callers(waiters - {id}) == Callers(waiters) - {id}
  {
  }

  /** A request goes out, and its caller waits. */
  lemma SentKept(s: State, what: ControlKind, caller: Option<Token>, waiter: Waiter, w: World, rest: D.Agenda)
    requires w.writeOk && AsCaller(waiter) == D.Caller(caller, what.PlainControl?)
    requires Amid(s, D.Then(ControlSent(s.nextId, what, caller, s.clock + w.writing, true), rest))
    requires !s.life.Gone?
    ensures var sent := SendControl(s, what, caller, w);
            Amid(sent.(waiters := sent.waiters[s.nextId := waiter]), rest)
  {
    hide D.Watched, Emit, Callers;
    CallersAdded(s.waiters, s.nextId, waiter);
    Does(s, Passed(s, w.writing).(nextId := s.nextId + 1),
         ControlSent(s.nextId, what, caller, s.clock + w.writing, true));
  }

  lemma UnsentKept(s: State, what: ControlKind, caller: Option<Token>, w: World, rest: D.Agenda)
    requires !w.writeOk && !s.life.Gone?
    requires Amid(s, D.Then(ControlSent(s.nextId, what, caller, s.clock + w.writing, false), rest))
    ensures Amid(SendControl(s, what, caller, w), rest)
  {
    hide D.Watched, Emit, Callers;
    Does(s, Passed(s, w.writing).(nextId := s.nextId + 1),
         ControlSent(s.nextId, what, caller, s.clock + w.writing, false));
  }

  lemma RequestKept(s: State, what: ControlKind, waiter: Waiter, reply: Token, w: World, scene: Scene)
    requires scene.at == s.clock && scene.w == w && !s.life.Gone?
    requires AsCaller(waiter) == D.Caller(Some(reply), what.PlainControl?)
    requires Amid(s, D.Request(s.nextId, what, reply, scene))
    ensures Kept(SendAwaited(s, what, waiter, reply, w).state)
  {
    hide Amid, Emit;
    if w.writeOk {
      SentKept(s, what, Some(reply), waiter, w, D.Nothing);
    } else {
      UnsentKept(s, what, Some(reply), w, D.Tell(reply, Failed(WriteFailed)));
      Told(SendControl(s, what, Some(reply), w), reply, Failed(WriteFailed));
    }
  }

  /** A command taken from the queue is to be served. */
  predicate Served(s: State, was: D.Watch, c: Command, w: World) {
    && Amid(s, D.Service(was, c, SceneOf(s, w)))
    && s.life.Looping? && s.phase.Serving?
    && was.nextId == s.nextId && was.withdrawn == s.withdrawn
    && D.Watched(s.log).taken == D.StartOf(c)
  }

  lemma ReceivedKept(s: State, c: Command, w: World)
    requires Kept(s) && s.life.Looping? && !c.Stop?
    ensures var received := Emit(s, Received(c, SceneOf(s, w)));
            if Halted(s) then Amid(received, D.Tell(c.reply, Failed(ChildStopped)))
            else Served(received, D.Watched(s.log), c, w)
  {
    hide D.Watched, Emit, Callers, D.Service;
    Happens(s, s, Received(c, SceneOf(s, w)));
  }

  lemma BeganKept(s: State, setup: TurnSetup, due: D.Agenda)
    requires Amid(s, D.Then(HandOffBegan(setup.reply, s.clock), due))
    requires D.Watched(s.log).taken == Some(StartedBy(setup))
    requires s.life.Looping? && s.phase.Serving? && s.setup.None?
    requires AsUnderway(setup) == D.Began(StartedBy(setup), s.clock) && Honest(setup)
    ensures InHand(Emit(s, HandOffBegan(setup.reply, s.clock)), setup, due)
  {
    hide D.Watched, Emit, Callers, D.Began, AsUnderway, Honest;
    Does(s, s, HandOffBegan(setup.reply, s.clock));
  }

  lemma StartTurnKept(s: State, was: D.Watch, c: Command, w: World)
    requires c.StartTurn? && Served(s, was, c, w)
    ensures Kept(BeginTurnSetup(s, c, w).state)
  {
    hide Amid, InHand, D.Watched, SendSetup, D.Send;
    if w.gaveUp {
      Told(s, c.reply, Dropped);
    } else if s.mapper.active.Some? || s.setup.Some? {
      Told(s, c.reply, Failed(ThreadBusy));
    } else {
      var setup := TurnSetup(c.line, c.turn, c.model, c.settings, c.notice, c.reply, Mode, 0,
                             s.clock + TURN_SETTINGS_BUDGET, s.clock, s.clock, None, None);
      BeganKept(s, setup, D.Send(s.nextId, AsUnderway(setup), Mode, SceneOf(s, w)));
      EmitFields(s, HandOffBegan(c.reply, s.clock));
      hide Emit;
      SendKept(Emit(s, HandOffBegan(c.reply, s.clock)), setup, Mode, w, SceneOf(s, w));
    }
  }

  lemma EmitFields(s: State, o: Obs)
    ensures var e := Emit(s, o);
            e.life == s.life && e.phase == s.phase && e.setup == s.setup && e.mapper == s.mapper
            && e.clock == s.clock && e.nextId == s.nextId && e.reaped == s.reaped && e.waiters == s.waiters
  {
  }

  lemma RefusedKept(s: State, ask: AskId, rest: D.Agenda)
    requires Amid(s, D.Then(AskRefused(ask), rest)) && !s.life.Gone?
    ensures Amid(Emit(s.(withdrawn := s.withdrawn - {ask}), AskRefused(ask)), rest)
  {
    hide D.Watched, Emit, Callers;
    Does(s, s.(withdrawn := s.withdrawn - {ask}), AskRefused(ask));
  }

  lemma ApprovalKept(s: State, was: D.Watch, c: Command, w: World)
    requires c.RespondApproval? && Served(s, was, c, w)
    ensures Kept(RespondToApproval(s, c, w).state)
  {
    hide Amid, D.Watched, Emit;
    if c.ask in s.withdrawn {
      RefusedKept(s, c.ask, D.Tell(c.reply, Failed(Withdrawn)));
      Told(Emit(s.(withdrawn := s.withdrawn - {c.ask}), AskRefused(c.ask)), c.reply, Failed(Withdrawn));
    } else if w.gaveUp || c.decision == ExecPolicyAmendment {
      var outcome := if w.gaveUp then Dropped else Failed(UnsupportedDecision);
      DoesPlain(s, s, AskReinserted(Approval, c.ask), D.Tell(c.reply, outcome));
      Told(Emit(s, AskReinserted(Approval, c.ask)), c.reply, outcome);
    } else {
      var told := Passed(s.(interruptSent := s.interruptSent || c.decision == Cancel), w.writing);
      var o := AskAnswered(Approval, c.ask, Some(c.decision), w.writeOk);
      DoesPlain(s, told, o, D.Tell(c.reply, Written(w)));
      Told(Emit(told, o), c.reply, Written(w));
    }
  }

  lemma ClearedKept(s: State, ask: AskId, reply: Token, outcome: Outcome)
    requires Amid(s, D.Then(AskCleared(ask), D.Tell(reply, outcome))) && s.life.Looping? && s.phase.Serving?
    ensures Kept(Settle(Publish(s, AskCleared(ask)), reply, outcome))
  {
    ServingIsNotReaped(s, D.Then(AskCleared(ask), D.Tell(reply, outcome)));
    hide Amid, Emit;
    DoesPlain(s, s, AskCleared(ask), D.Tell(reply, outcome));
    Told(Emit(s, AskCleared(ask)), reply, outcome);
  }

  lemma ServerRequestKept(s: State, was: D.Watch, c: Command, w: World)
    requires c.RespondServerRequest? && Served(s, was, c, w)
    ensures Kept(RespondToServerRequest(s, c, w).state)
  {
    hide Amid, D.Watched, Settle, Publish;
    if c.ask in s.withdrawn {
      var refused := Emit(s.(withdrawn := s.withdrawn - {c.ask}), AskRefused(c.ask));
      RefusedKept(s, c.ask, D.Then(AskCleared(c.ask), D.Tell(c.reply, Failed(Withdrawn))));
      ClearedKept(refused, c.ask, c.reply, Failed(Withdrawn));
    } else if w.gaveUp || !c.fits {
      var outcome := if w.gaveUp then Dropped else Failed(UnfitAnswer);
      DoesPlain(s, s, AskReinserted(ServerRequest, c.ask), D.Tell(c.reply, outcome));
      Told(Emit(s, AskReinserted(ServerRequest, c.ask)), c.reply, outcome);
    } else {
      var o := AskAnswered(ServerRequest, c.ask, None, w.writeOk);
      var wrote := Emit(Passed(s, w.writing), o);
      if w.writeOk {
        DoesPlain(s, Passed(s, w.writing), o, D.Then(AskCleared(c.ask), D.Tell(c.reply, Done)));
        ClearedKept(wrote, c.ask, c.reply, Done);
      } else {
        DoesPlain(s, Passed(s, w.writing), o, D.Tell(c.reply, Failed(WriteFailed)));
        Told(wrote, c.reply, Failed(WriteFailed));
      }
    }
  }

  lemma CompactKept(s: State, was: D.Watch, c: Command, w: World)
    requires c.Compact? && Served(s, was, c, w)
    ensures Kept(CompactTurn(s, c, w).state)
  {
    hide Amid, D.Watched, Emit, BeginTurn, D.Opening;
    if w.gaveUp {
      Told(s, c.reply, Dropped);
    } else if s.mapper.active.Some? || s.setup.Some? {
      Told(s, c.reply, Failed(ThreadBusy));
    } else {
      var o := CompactLine(c.reply, c.turn, s.mapper.active, HandOffs(s), w.writeOk);
      OpenedKept(s, c.turn, c.notice, D.Then(o, D.Tell(c.reply, Written(w))));
      var begun := BeginTurn(s, c.turn, c.notice);
      DoesPlain(begun, Passed(begun, w.writing), o, D.Tell(c.reply, Written(w)));
      Told(Emit(Passed(begun, w.writing), o), c.reply, Written(w));
    }
  }

  lemma InterruptKept(s: State, was: D.Watch, c: Command, w: World)
    requires c.Interrupt? && Served(s, was, c, w)
    ensures Kept(InterruptTurn(s, c, w).state)
  {
    hide Amid, D.Watched, SendAwaited, D.Request;
    RequestKept(s, UserInterrupt, UnitWaiter(c.reply), c.reply, w, SceneOf(s, w));
    var r := SendAwaited(s, UserInterrupt, UnitWaiter(c.reply), c.reply, w);
    BesideKept(r.state, r.state.(interruptSent := true));
  }

  lemma CommandServedKept(s: State, was: D.Watch, c: Command, w: World)
    requires !c.Stop? && Served(s, was, c, w)
    ensures Kept(HandleCommand(s, c, w).state)
  {
    hide Amid, D.Watched, BeginTurnSetup, InterruptTurn, SendAwaited, RespondToApproval, RespondToServerRequest,
      CompactTurn, D.Request, Settle;
    match c
    case StartTurn(_, _, _, _, _, _) => StartTurnKept(s, was, c, w);
    case Interrupt(_) => InterruptKept(s, was, c, w);
    case Control(reply) => RequestKept(s, PlainControl, ValueWaiter(reply), reply, w, SceneOf(s, w));
    case RespondApproval(_, _, _) => ApprovalKept(s, was, c, w);
    case RespondServerRequest(_, _, _) => ServerRequestKept(s, was, c, w);
    case StopTask(reply) =>
      match w.task {
        case Running => RequestKept(s, TaskStop, TaskWaiter(reply), reply, w, SceneOf(s, w));
        case NotYetStarted => Told(s, reply, Failed(NotStarted));
        case Ended => Told(s, reply, Done);
        case NoRoute => Told(s, reply, Failed(NotARoute));
      }
    case StopBackgroundCommand(reply) =>
      if w.command {
        RequestKept(s, CommandStop, UnitWaiter(reply), reply, w, SceneOf(s, w));
      } else {
        Told(s, reply, Failed(NoBackgroundCommand));
      }
    case Compact(_, _, _) => CompactKept(s, was, c, w);
  }

  // ---- The stop sequence ---------------------------------------------------------------------

  /** The stop sequence is about to begin: its hand-off, if any, has failed. */
  predicate Leaves(s: State) {
    var w := D.Watched(s.log);
    && Knows(w.(leaving := false), s) && s.life.Looping? && s.setup.None?
    && w.halt.Ongoing? && w.agenda.Nothing?
  }

  lemma AbandonKept(s: State)
    requires Kept(s) && s.life.Looping? && !Halted(s)
    ensures Leaves(AbandonSetup(s))
    ensures AbandonSetup(s).mapper == s.mapper && AbandonSetup(s).clock == s.clock
  {
    hide D.Watched, Emit, Callers;
    if s.setup.Some? {
      var o := Settled(s.setup.value.reply, Failed(ChildStopping));
      Happens(s, s.(setup := None, abandoned := s.abandoned + {s.setup.value.id}), o);
    }
  }

  /** The stop sequence has begun and its first stage is not chosen yet. */
  predicate Chooses(s: State, due: D.Agenda, at: Instant) {
    var w := D.Watched(s.log);
    && Knows(w, s) && s.life.Looping? && s.phase.Halting? && s.setup.None?
    && w.halt == D.Interrupted(at + STOP_INTERRUPT_GRACE) && w.agenda == due
  }

  /** What the first stage is to be. */
  function FirstStage(s: State, w: World): D.Agenda {
    if s.mapper.active.None? then D.Last(StdinClosed(s.clock))
    else
      D.Then(ControlSent(s.nextId, StopInterrupt, None, s.clock + w.writing, w.writeOk),
             if w.writeOk then D.Nothing else D.Last(StdinClosed(s.clock + w.writing)))
  }

  lemma StoppingKept(s: State, reason: StopReason, reply: Option<Token>, reaped: bool, scene: Scene)
    requires Leaves(s) && scene == Scene(s.mapper.active, scene.handOffs, s.clock, scene.w)
    ensures var due := FirstStage(s, scene.w);
            var after := Emit(s, Trace.Stopping(reason, reply, scene)).(
                           idleSince := None, phase := Halting(reason, Listed(reply), Interrupting(0, 0, 0), reaped));
            Chooses(after, if reply.Some? then D.Then(StopJoined(reply.value), due) else due, s.clock)
  {
    hide D.Watched, Emit, Callers;
    Happens(s, s, Trace.Stopping(reason, reply, scene));
  }

  lemma EnteredKept(s: State, reason: StopReason, reply: Option<Token>, reaped: bool, scene: Scene)
    requires Leaves(s) && scene == Scene(s.mapper.active, scene.handOffs, s.clock, scene.w)
    ensures var after := Entered(s, reason, reply, reaped, scene);
            && Chooses(after, FirstStage(after, scene.w), s.clock)
            && after.clock == s.clock
  {
    StoppingKept(s, reason, reply, reaped, scene);
    hide D.Watched, Callers, Leaves;
    var stopping := Emit(s, Trace.Stopping(reason, reply, scene)).(
                      idleSince := None, phase := Halting(reason, Listed(reply), Interrupting(0, 0, 0), reaped));
    if reply.Some? {
      Does(stopping, stopping, StopJoined(reply.value));
    }
  }

  lemma DrainChosen(s: State, at: Instant)
    requires Chooses(s, D.Last(StdinClosed(s.clock)), at)
    ensures Kept(Drain(s))
  {
    hide D.Watched, Emit, Callers;
    Does(s, s, StdinClosed(s.clock));
  }

  lemma InterruptChosen(s: State, w: World, turn: TurnId)
    requires w.writeOk
    requires Chooses(s, D.Last(ControlSent(s.nextId, StopInterrupt, None, s.clock + w.writing, true)), s.clock)
    ensures var sent := SendControl(s, StopInterrupt, None, w);
            Kept(sent.(waiters := sent.waiters[s.nextId := NobodyWaits], interruptSent := true,
                       phase := s.phase.(stage := Interrupting(turn, s.nextId, s.clock + STOP_INTERRUPT_GRACE))))
  {
    hide D.Watched, Emit, Callers;
    CallersAdded(s.waiters, s.nextId, NobodyWaits);
    Does(s, Passed(s, w.writing).(nextId := s.nextId + 1),
         ControlSent(s.nextId, StopInterrupt, None, s.clock + w.writing, true));
  }

  lemma UnsentChosen(s: State, w: World)
    requires !w.writeOk
    requires Chooses(s, D.Then(ControlSent(s.nextId, StopInterrupt, None, s.clock + w.writing, false),
                               D.Last(StdinClosed(s.clock + w.writing))), s.clock)
    ensures var sent := SendControl(s, StopInterrupt, None, w);
            Chooses(sent, D.Last(StdinClosed(sent.clock)), s.clock)
  {
    hide D.Watched, Emit, Callers;
    Does(s, Passed(s, w.writing).(nextId := s.nextId + 1),
         ControlSent(s.nextId, StopInterrupt, None, s.clock + w.writing, false));
  }

  lemma ChooseStageKept(s: State, w: World)
    requires s.phase.Halting? && Chooses(s, FirstStage(s, w), s.clock)
    ensures Kept(ChooseStage(s, w))
  {
    hide Chooses, Kept, Drain, Emit;
    match s.mapper.active
    case None => DrainChosen(s, s.clock);
    case Some(turn) =>
      if w.writeOk {
        InterruptChosen(s, w, turn);
      } else {
        UnsentChosen(s, w);
        DrainChosen(SendControl(s, StopInterrupt, None, w), s.clock);
      }
  }

  lemma JoinKept(s: State, reply: Option<Token>)
    requires Kept(s) && s.life.Looping? && s.phase.Halting?
    ensures Kept(Collect(s, reply).(phase := s.phase.(replies := s.phase.replies + Listed(reply))))
  {
    hide D.Watched, Emit, Callers;
    if reply.Some? {
      Happens(s, s, StopJoined(reply.value));
    }
  }

  lemma EnterStoppingKept(s: State, reason: StopReason, reply: Option<Token>, reaped: bool, w: World)
    requires s.life.Looping? && (if Halted(s) then Kept(s) else Leaves(AbandonSetup(s)))
    ensures Kept(EnterStopping(s, reason, reply, reaped, w))
  {
    if Halted(s) {
      JoinKept(s, reply);
    } else {
      AbandonFields(s);
      hide Leaves, Kept, AbandonSetup, ChooseStage, Entered, Chooses;
      EnteredKept(AbandonSetup(s), reason, reply, reaped, SceneOf(s, w));
      EnteredHalts(AbandonSetup(s), reason, reply, reaped, SceneOf(s, w));
      ChooseStageKept(Entered(AbandonSetup(s), reason, reply, reaped, SceneOf(s, w)), w);
    }
  }

  lemma AbandonFields(s: State)
    ensures AbandonSetup(s).mapper == s.mapper && AbandonSetup(s).clock == s.clock
  {
  }

  lemma EnteredHalts(s: State, reason: StopReason, reply: Option<Token>, reaped: bool, scene: Scene)
    ensures Entered(s, reason, reply, reaped, scene).phase.Halting?
  {
  }

  lemma CommandKept(s: State, command: Option<Command>, w: World)
    requires Kept(s) && s.life.Looping?
    ensures Kept(OnCommand(s, command, w).state)
  {
    hide Amid, Emit, HandleCommand, EnterStopping, Leaves, D.Watched, Served;
    match command
    case None =>
      var closed := s.(commandsClosed := true);
      BesideKept(s, closed);
      if !Halted(s) {
        AbandonKept(closed);
        EnterStoppingKept(closed, HarnessDropped, None, false, w);
      }
    case Some(Stop(reply)) =>
      if !Halted(s) {
        AbandonKept(s);
      }
      EnterStoppingKept(s, StopAsked, Some(reply), false, w);
    case Some(c) =>
      ReceivedKept(s, c, w);
      var received := Emit(s, Received(c, SceneOf(s, w)));
      if Halted(s) {
        Told(received, c.reply, Failed(ChildStopped));
      } else {
        CommandServedKept(received, D.Watched(s.log), c, w);
      }
  }

  // ---- Frames --------------------------------------------------------------------------------

  lemma WaiterAnswered(s: State, id: RequestId, payload: Payload, w: World)
    requires Kept(s) && InLoop(s) && id in s.waiters && !(s.setup.Some? && s.setup.value.id == id)
    ensures var taken := Emit(s.(waiters := s.waiters - {id}), Answered(id, payload, SceneOf(s, w)));
            Amid(taken, if s.waiters[id].NobodyWaits? then D.Nothing
                        else D.Tell(s.waiters[id].reply, WaiterOutcome(s.waiters[id], payload)))
  {
    CallersRemoved(s.waiters, id);
    assert id in Callers(s.waiters) && Callers(s.waiters)[id] == AsCaller(s.waiters[id]);
    hide D.Watched, Emit, Callers;
    Happens(s, s.(waiters := s.waiters - {id}), Answered(id, payload, SceneOf(s, w)));
  }

  lemma LateAnswered(s: State, id: RequestId, payload: Payload, w: World)
    requires Kept(s) && InLoop(s) && id !in s.waiters && !(s.setup.Some? && s.setup.value.id == id)
    ensures Kept(Emit(s.(abandoned := s.abandoned - {id}), Answered(id, payload, SceneOf(s, w))))
  {
    assert id !in Callers(s.waiters) && Callers(s.waiters) - {id} == Callers(s.waiters);
    hide D.Watched, Emit, Callers;
    Happens(s, s.(abandoned := s.abandoned - {id}), Answered(id, payload, SceneOf(s, w)));
  }

  lemma ResponseKept(s: State, id: RequestId, payload: Payload, w: World)
    requires Kept(s) && InLoop(s)
    ensures Kept(OnControlResponse(s, id, payload, w).state)
  {
    hide Amid, Emit, OnSetupResponse, WaiterOutcome, D.Watched;
    if s.setup.Some? && s.setup.value.id == id {
      SetupResponseKept(s, payload, w);
    } else if id in s.waiters {
      WaiterAnswered(s, id, payload, w);
      var taken := Emit(s.(waiters := s.waiters - {id}), Answered(id, payload, SceneOf(s, w)));
      if !s.waiters[id].NobodyWaits? {
        Told(taken, s.waiters[id].reply, WaiterOutcome(s.waiters[id], payload));
      }
    } else if id in s.abandoned {
      LateAnswered(s, id, payload, w);
    } else {
      PlainKeptHere(s, Unmatched(id));
    }
  }

  /** A withdrawal: a server request's card is cleared at once, unless the child was reaped. */
  lemma CancelKept(s: State, ask: AskId, found: Option<AskKind>)
    requires Kept(s) && InLoop(s)
    ensures Kept(OnCancelRequest(s, ask, found))
  {
    hide D.Watched, Callers;
    if found.None? {
      Happens(s, s.(withdrawn := s.withdrawn + {ask}), AskWithdrawn(ask, found));
    } else {
      Happens(s, s, AskWithdrawn(ask, found));
      var noted := Emit(s, AskWithdrawn(ask, found));
      if found == Some(ServerRequest) {
        ClearingKept(noted, if s.reaped then OutputDropped else AskCleared(ask));
      }
    }
  }

  lemma ClearingKept(s: State, o: Obs)
    requires Amid(s, D.Last(o)) && (o.OutputDropped? || o.AskCleared?)
    ensures Kept(Emit(s, o))
  {
    DoesPlain(s, s, o, D.Nothing);
  }

  lemma PublishedKept(s: State, o: Obs)
    requires Kept(s) && InLoop(s)
    requires o.Published? || o.AskRecorded? || o.RoutePublished?
    ensures Kept(Publish(s, o))
  {
    PlainKeptHere(s, if s.reaped then OutputDropped else o);
  }

  lemma DispatchKept(s: State, output: Output, w: World)
    requires Kept(s) && InLoop(s)
    ensures Kept(Dispatch(s, output, w).state)
  {
    hide Amid, D.Watched, Emit, Publish, OnControlResponse, OnCancelRequest, Kept;
    match output
    case Event => PublishedKept(s, Published);
    case Reply => MapperReplyKept(s, w);
    case ControlResponse(id, payload) => ResponseKept(s, id, payload, w);
    case PendingAsk(kind, ask) => PublishedKept(s, AskRecorded(kind, ask));
    case CancelRequest(ask) => CancelKept(s, ask, w.pending);
    case RouteOpened(thread) => PublishedKept(s, RoutePublished(thread));
    case RouteReopened(thread) => PublishedKept(s, RoutePublished(thread));
    case RouteClosed(thread) => RouteClosedKept(s, thread, w.asks);
  }

  lemma MapperReplyKept(s: State, w: World)
    requires Kept(s) && InLoop(s)
    ensures Kept(Dispatch(s, Reply, w).state)
  {
    hide Kept, Emit;
    if s.reaped {
      PlainKeptHere(s, OutputDropped);
    } else {
      BesideKept(s, Passed(s, w.writing));
      PlainKeptHere(Passed(s, w.writing), MapperWrote(w.writeOk));
    }
  }

  lemma RouteClosedKept(s: State, thread: ThreadId, asks: set<AskId>)
    requires Kept(s) && InLoop(s)
    ensures Kept(CloseRoute(s, thread, asks))
  {
    hide Kept, Emit;
    PlainKeptHere(s, RouteLeft(thread));
    EmitFields(s, RouteLeft(thread));
    PlainKeptHere(Emit(s, RouteLeft(thread)), AsksForgotten(asks));
  }

  lemma {:induction false} DispatchAllKept(s: State, outputs: seq<(Output, World)>)
    requires Kept(s) && InLoop(s)
    ensures Kept(DispatchAll(s, outputs).state)
    ensures var after := DispatchAll(s, outputs).state; after.life == s.life && after.phase == s.phase
    decreases |outputs|
  {
    hide Kept, Dispatch;
    if outputs != [] {
      DispatchKept(s, outputs[0].0, outputs[0].1);
      DispatchStays(s, outputs[0].0, outputs[0].1);
      if Dispatch(s, outputs[0].0, outputs[0].1).ok {
        DispatchAllKept(Dispatch(s, outputs[0].0, outputs[0].1).state, outputs[1..]);
      }
    }
  }

  // ---- The loop ------------------------------------------------------------------------------

  lemma EndKept(s: State, otherwise: Steps.Ending)
    requires Kept(s) && InLoop(s)
    ensures Kept(End(s, otherwise))
  {
    hide D.Watched, Callers;
  }

  lemma BreakKept(s: State)
    requires Kept(s) && InLoop(s)
    ensures Kept(Break(s))
  {
    hide End, Kept, D.Watched;
    BesideKept(s, s.(failed := true));
    PlainKeptHere(s.(failed := true), Killed(false, s.clock));
    EndKept(Emit(s.(failed := true), Killed(false, s.clock)), Broken);
  }

  /** The deadline in force has passed. */
  predicate Overdue(s: State) {
    StageDeadline(s).Some? && StageDeadline(s).value <= s.clock
  }

  lemma TimedOutSeen(s: State)
    requires Kept(s) && s.life.Looping? && s.phase.Serving? && Overdue(s)
    ensures var setup := s.setup.value;
            Amid(Emit(s, StageDue(s.clock)).(setup := None, abandoned := s.abandoned + {setup.id}),
                 D.Tell(setup.reply,
                        Failed(TimedOut(setup.stage, if setup.deadline >= setup.sent then setup.deadline - setup.sent
                                                     else 0))))
  {
    hide D.Watched, Emit, Callers;
    Happens(s, s, StageDue(s.clock));
  }

  lemma TimedOutKept(s: State)
    requires Kept(s) && s.life.Looping? && s.phase.Serving? && Overdue(s)
    ensures Kept(OnDeadline(s))
  {
    TimedOutSeen(s);
    TimedOutState(s);
    hide Amid, Kept, OnDeadline, Emit;
    var setup := s.setup.value;
    Told(Emit(s, StageDue(s.clock)).(setup := None, abandoned := s.abandoned + {setup.id}), setup.reply,
         Failed(TimedOut(setup.stage, if setup.deadline >= setup.sent then setup.deadline - setup.sent else 0)));
  }

  lemma TimedOutState(s: State)
    requires s.phase.Serving? && s.setup.Some?
    ensures var setup := s.setup.value;
            OnDeadline(s)
            == Settle(Emit(s, StageDue(s.clock)).(setup := None, abandoned := s.abandoned + {setup.id}), setup.reply,
                      Failed(TimedOut(setup.stage, if setup.deadline >= setup.sent then setup.deadline - setup.sent
                                                   else 0)))
  {
  }

  /** The stop's deadline: stdin closes, or the child is killed. */
  lemma StopDueSeen(s: State)
    requires Kept(s) && s.life.Looping? && s.phase.Halting? && Overdue(s)
    ensures Amid(Emit(s, StageDue(s.clock)),
                 D.Last(if s.phase.stage.Interrupting? then StdinClosed(s.clock) else Killed(true, s.clock)))
  {
    hide D.Watched, Emit, Callers;
    Happens(s, s, StageDue(s.clock));
  }

  lemma DrainKept(s: State)
    requires Amid(s, D.Last(StdinClosed(s.clock))) && s.life.Looping? && s.phase.Halting?
    ensures Kept(Drain(s))
  {
    hide D.Watched, Emit, Callers;
    Does(s, s, StdinClosed(s.clock));
  }

  lemma DeadlineKept(s: State)
    requires Kept(s) && s.life.Looping? && Overdue(s)
    ensures Kept(OnDeadline(s))
  {
    if s.phase.Serving? {
      TimedOutKept(s);
    } else {
      StopDueSeen(s);
      EmitFields(s, StageDue(s.clock));
      hide Amid, Drain, End, Emit;
      var due := Emit(s, StageDue(s.clock));
      if s.phase.stage.Interrupting? {
        DrainKept(due);
      } else {
        DoesPlain(due, due, Killed(true, s.clock), D.Nothing);
        EmitFields(due, Killed(true, s.clock));
        EndKept(Emit(due, Killed(true, s.clock)), Eof);
      }
    }
  }

  lemma LineMappedSeen(s: State)
    requires Kept(s) && s.life.Looping?
    ensures Amid(Emit(s, LineMapped(s.mapper.active, s.clock)),
                 if s.mapper.active.None? && s.phase.Halting? && s.phase.stage.Interrupting?
                 then D.Last(StdinClosed(s.clock)) else D.Nothing)
  {
    hide D.Watched, Emit, Callers;
    Happens(s, s, LineMapped(s.mapper.active, s.clock));
  }

  lemma AfterLineKept(s: State)
    requires Kept(s) && s.life.Looping?
    ensures Kept(AfterLine(s))
  {
    LineMappedSeen(s);
    EmitFields(s, LineMapped(s.mapper.active, s.clock));
    hide Amid, Drain, Emit;
    if s.mapper.active.None? && s.phase.Halting? && s.phase.stage.Interrupting? {
      DrainKept(Emit(s, LineMapped(s.mapper.active, s.clock)));
    }
  }

  lemma MappedKept(s: State, view: MapperView, outputs: seq<(Output, World)>)
    requires Kept(s) && InLoop(s)
    ensures var r := Mapped(s, view, outputs);
            Kept(r.state) && r.state.life == s.life && Kept(Break(r.state))
  {
    hide Kept, DispatchAll, Break;
    BesideKept(s, s.(mapper := view));
    DispatchAllKept(s.(mapper := view), outputs);
    BreakKept(Mapped(s, view, outputs).state);
  }

  lemma LineKept(s: State, view: MapperView, outputs: seq<(Output, World)>)
    requires Kept(s) && s.life.Looping?
    ensures Kept(OnLine(s, view, outputs))
  {
    hide Kept, Mapped, AfterLine, Break;
    BesideKept(s, s.(lastLine := s.clock));
    PlainKeptHere(s.(lastLine := s.clock), LineRead(s.clock));
    var read := Emit(s.(lastLine := s.clock), LineRead(s.clock));
    MappedKept(read, view, outputs);
    if Mapped(read, view, outputs).ok {
      AfterLineKept(Mapped(read, view, outputs).state);
    }
  }

  lemma PolledKept(s: State, t: Steps.Turn)
    requires Kept(s) && s.life.Looping?
    ensures Kept(Polled(s, t)) && Polled(s, t).life.Looping?
  {
    hide Kept, BusyWith;
    if !Halted(s) {
      PlainKeptHere(s, LoopTop(s.clock, BusyWith(s, t.asks)));
      BesideKept(Emit(s, LoopTop(s.clock, BusyWith(s, t.asks))), Polled(s, t));
    } else {
      BesideKept(s, Polled(s, t));
    }
  }

  // ---- The reap ------------------------------------------------------------------------------

  lemma ReapedLeaves(s: State, timeout: nat)
    requires Kept(s) && s.life.Looping? && s.phase.Serving? && s.setup.None?
    ensures Leaves(Emit(s.(reaped := true), Reaped(s.clock, timeout, 0, |s.waiters|)))
  {
    hide D.Watched, Emit, Callers;
    Happens(s, s.(reaped := true), Reaped(s.clock, timeout, 0, |s.waiters|));
  }

  lemma ReapKept(s: State, queued: Option<Command>, w: World)
    requires Kept(s) && s.life.Looping? && s.phase.Serving? && s.setup.None? && s.idleTimeout.Some?
    ensures Kept(Reap(s, queued, w).state)
  {
    hide Kept, OnCommand, EnterStopping, Emit, Leaves;
    var cooled := Emit(s, RoutesCooled);
    EmitFields(s, RoutesCooled);
    PlainKeptHere(s, RoutesCooled);
    if !w.holdsEntry {
      AbandonKept(cooled);
      EnterStoppingKept(cooled, StopAsked, None, false, w);
    } else if queued.Some? {
      PlainKeptHere(cooled, ReapCancelled);
      EmitFields(cooled, ReapCancelled);
      CommandKept(Emit(cooled, ReapCancelled), queued, w);
    } else {
      CooledModel(s);
      PlainKeptHere(cooled, EntryReleased(s.model));
      EmitFields(cooled, EntryReleased(s.model));
      ReapTakenKept(Emit(cooled, EntryReleased(s.model)), s.clock, s.idleTimeout.value, w);
    }
  }

  lemma CooledModel(s: State)
    ensures Emit(s, RoutesCooled).model == s.model && Emit(s, RoutesCooled).idleTimeout == s.idleTimeout
  {
  }

  lemma ReapTakenKept(s: State, at: Instant, timeout: nat, w: World)
    requires Kept(s) && s.life.Looping? && s.phase.Serving? && s.setup.None? && at == s.clock
    ensures var reaped := Emit(s.(reaped := true), Reaped(at, timeout, HandOffs(s), |s.waiters|));
            Kept(EnterStopping(reaped, Idle, None, true, w))
  {
    ReapedLeaves(s, timeout);
    EmitFields(s.(reaped := true), Reaped(s.clock, timeout, 0, |s.waiters|));
    hide Kept, EnterStopping, Emit, Leaves;
    var reaped := Emit(s.(reaped := true), Reaped(at, timeout, HandOffs(s), |s.waiters|));
    NothingAbandoned(reaped);
    EnterStoppingKept(reaped, Idle, None, true, w);
  }

  lemma NothingAbandoned(s: State)
    requires s.setup.None?
    ensures AbandonSetup(s) == s
  {
  }

  // ---- Exit ----------------------------------------------------------------------------------

  lemma WaiterIsFailed(waiters: map<RequestId, Waiter>, id: RequestId)
    requires id in waiters && !waiters[id].NobodyWaits?
    ensures waiters[id].reply in WaiterReplies(waiters)
  {
    hide WaiterReplies;
    WaiterRemoved(waiters, id);
  }

  lemma {:induction false} FailedWaits(waiters: map<RequestId, Waiter>, reply: Token) returns (id: RequestId)
    requires reply in WaiterReplies(waiters)
    ensures id in waiters && !waiters[id].NobodyWaits? && waiters[id].reply == reply
    decreases |waiters|
  {
    NoneWait(waiters);
    hide WaiterReplies;
    id := FirstWaiter(waiters);
    if reply !in ReplyOf(waiters[id]) {
      id := FailedWaits(waiters - {id}, reply);
    }
  }

  lemma NoneWait(waiters: map<RequestId, Waiter>)
    ensures waiters == map[] ==> WaiterReplies(waiters) == multiset{}
  {
  }

  /** The child's thread is being left. */
  predicate Parts(s: State) {
    var w := D.Watched(s.log);
    && w.ok && !w.leaving && w.agenda.Nothing?
    && w.callers == Callers(s.waiters) && w.reaped == s.reaped
    && s.life.Ending?
  }

  lemma FailSetupParts(s: State)
    requires Kept(s) && s.life.Ending?
    ensures Parts(FailSetup(s))
  {
    hide D.Watched, Emit, Callers;
    if s.setup.Some? {
      Happens(s, s.(setup := None), Settled(s.setup.value.reply, Failed(ChildStopped)));
    }
  }

  predicate Leaving(o: Obs, reaped: bool) {
    || (o.OutputDropped? && reaped) || o.Published? || o.RouteLeft? || o.AsksForgotten? || o.AsksDropped?
    || o.RoutesCooled? || o.LogClosed? || o.EntryRemoved? || o.StopAnswered?
  }

  lemma LeavingIsPlain(w: D.Watch, o: Obs)
    requires !w.leaving && Leaving(o, w.reaped)
    ensures D.Spontaneous(w, o) && D.Notices(w, o) == w && D.Owed(w, o).Nothing?
  {
  }

  lemma PlainParts(s: State, o: Obs)
    requires Parts(s) && Leaving(o, s.reaped)
    ensures Parts(Emit(s, o))
  {
    LeavingIsPlain(D.Watched(s.log), o);
    hide D.Watched, Emit, Callers, D.Spontaneous, D.Notices, D.Owed, Leaving;
    Happens(s, s, o);
  }

  lemma {:induction false} PartAllParts(s: State, partings: seq<Parting>)
    requires Parts(s)
    ensures Parts(PartAll(s, partings))
    decreases |partings|
  {
    hide Parts, Emit;
    if partings != [] {
      match partings[0] {
        case Said => PlainParts(s, if s.reaped then OutputDropped else Published);
        case Closed(thread, asks) =>
          PlainParts(s, RouteLeft(thread));
          PlainParts(Emit(s, RouteLeft(thread)), AsksForgotten(asks));
      }
      PartAllParts(Part(s, partings[0]), partings[1..]);
    }
  }

  lemma EndThreadParts(s: State, bye: Farewell, asks: set<AskId>)
    requires Kept(s) && s.life.Ending?
    ensures Parts(EndThread(s, bye, asks))
  {
    hide Kept, Parts, PartAll, FailSetup, Emit, Partings, WasReaped;
    FailSetupParts(s);
    var freed := FailSetup(s);
    if !WasReaped(s) {
      PlainParts(freed, AsksDropped(asks));
    }
    var dropped := if WasReaped(s) then freed else Emit(freed, AsksDropped(asks));
    PartAllParts(dropped, Partings(s, bye));
    PlainParts(PartAll(dropped, Partings(s, bye)), RoutesCooled);
    if !WasReaped(s) {
      PlainParts(Emit(PartAll(dropped, Partings(s, bye)), RoutesCooled), LogClosed);
    }
  }

  /** Those failed with the child are those the watch knows to wait. */
  lemma WaitersAwaited(s: State)
    requires Parts(s)
    ensures D.Spontaneous(D.Watched(s.log), WaitersFailed(WaiterReplies(s.waiters)))
  {
    var w, replies := D.Watched(s.log), WaiterReplies(s.waiters);
    hide D.Watched, WaiterReplies;
    forall reply | reply in replies ensures D.AwaitedBy(w, reply) {
      var id := FailedWaits(s.waiters, reply);
      assert id in w.callers && w.callers[id].reply == Some(reply);
    }
    forall id <- w.callers ensures w.callers[id].reply.Some? ==> w.callers[id].reply.value in replies {
      if w.callers[id].reply.Some? {
        WaiterIsFailed(s.waiters, id);
      }
    }
  }

  lemma WaitersFailedParts(s: State)
    requires Parts(s)
    ensures Parts(Emit(s.(waiters := map[]), WaitersFailed(WaiterReplies(s.waiters))))
  {
    WaitersAwaited(s);
    assert Callers(map[]) == map[];
    hide D.Watched, Emit, D.Spontaneous, WaiterReplies, Callers;
    Happens(s, s.(waiters := map[]), WaitersFailed(WaiterReplies(s.waiters)));
  }

  /** Exit handling is done. */
  predicate Parted(s: State) {
    Parts(s) && D.Watched(s.log).over
  }

  lemma ExitParts(s: State)
    requires Parts(s)
    ensures Parted(Emit(s, ExitHandled))
  {
    hide D.Watched, Emit, Callers;
    Happens(s, s, ExitHandled);
  }

  lemma OnExitParts(s: State, bye: Farewell, w: World)
    requires Kept(s) && s.life.Ending?
    ensures Parted(OnExit(s, bye, w))
  {
    hide Kept, Parts, Parted, EndThread, Emit, WasReaped, WaiterReplies;
    EndThreadParts(s, bye, w.asks);
    Supervision.EndThreadWaiters(s, bye, w.asks);
    var ended := EndThread(s, bye, w.asks);
    WaitersFailedParts(ended);
    var failed := Emit(ended.(waiters := map[]), WaitersFailed(WaiterReplies(s.waiters)));
    if !WasReaped(s) && w.holdsEntry {
      PlainParts(failed, EntryRemoved);
      ExitParts(Emit(failed, EntryRemoved));
    } else {
      ExitParts(failed);
    }
  }

  lemma StopAnsweredParted(s: State, reply: Token)
    requires Parted(s)
    ensures Parted(Emit(s, StopAnswered(reply)))
  {
    hide D.Watched, Emit, Callers;
    Happens(s, s, StopAnswered(reply));
  }

  lemma {:induction false} AnswerStopsParted(s: State, replies: seq<Token>)
    requires Parted(s)
    ensures Parted(AnswerStops(s, replies))
    decreases |replies|
  {
    hide Parted;
    if replies != [] {
      StopAnsweredParted(s, replies[0]);
      AnswerStopsParted(Emit(s, StopAnswered(replies[0])), replies[1..]);
    }
  }

  lemma PartedIsKept(s: State)
    requires Parted(s)
    ensures Kept(s.(life := Gone))
  {
    hide D.Watched, Callers;
  }

  lemma FinishKept(s: State, bye: Farewell, w: World)
    requires Kept(s) && s.life.Ending?
    ensures Kept(Finish(s, bye, w))
  {
    hide Kept, Parted, OnExit, AnswerStops;
    OnExitParts(s, bye, w);
    var replies := if s.life.how.Stopped? then s.life.how.replies else [];
    AnswerStopsParted(OnExit(s, bye, w), replies);
    PartedIsKept(AnswerStops(OnExit(s, bye, w), replies));
  }

  // ---- Every step, every run -----------------------------------------------------------------

  lemma BodyKept(s: State, t: Steps.Turn)
    requires Kept(s) && s.life.Looping?
    requires t.input.StageTimer? ==> Overdue(s)
    requires t.input.IdleTimer? ==> ReapDue(s)
    ensures Kept(Body(s, t))
  {
    hide Kept, OnLine, OnCommand, EnterStopping, OnDeadline, Mapped, Reap, End, Break, Overdue, Leaves, AbandonSetup;
    match t.input
    case Line(view, outputs) => LineKept(s, view, outputs);
    case StdoutEof => EndKept(s, Eof);
    case ReadError => BreakKept(s);
    case Queue(command) =>
      CommandKept(s, command, t.w);
      OnCommandStays(s, command, t.w);
      BreakKept(OnCommand(s, command, t.w).state);
    case ShutdownFlag => ShutdownKept(s, t.w);
    case StageTimer => DeadlineKept(s);
    case NotificationTimer(view, outputs) =>
      BesideKept(s, s.(awaitingSince := None));
      MappedKept(s.(awaitingSince := None), view, outputs);
    case IdleTimer(queued) =>
      ReapKept(s, queued, t.w);
      ReapStays(s, queued, t.w);
      BreakKept(Reap(s, queued, t.w).state);
    case _ =>
  }

  lemma ShutdownKept(s: State, w: World)
    requires Kept(s) && s.life.Looping?
    ensures Kept(EnterStopping(s, Shutdown, None, false, w))
  {
    hide Kept, EnterStopping, Leaves, AbandonSetup;
    if !Halted(s) {
      AbandonKept(s);
    }
    EnterStoppingKept(s, Shutdown, None, false, w);
  }

  lemma ReapStays(s: State, queued: Option<Command>, w: World)
    requires s.idleTimeout.Some?
    ensures Reap(s, queued, w).state.life == s.life
  {
    hide OnCommand, EnterStopping;
    var cooled := Emit(s, RoutesCooled);
    EnterStoppingStays(cooled, StopAsked, None, false, w);
    OnCommandStays(Emit(cooled, ReapCancelled), queued, w);
    var released := Emit(cooled, EntryReleased(s.model));
    var reaped := Emit(released.(reaped := true), Reaped(s.clock, s.idleTimeout.value, HandOffs(s), |s.waiters|));
    EnterStoppingStays(reaped, Idle, None, true, w);
  }

  lemma StageTimerDue(s: State, t: Steps.Turn)
    requires t.input.StageTimer? && Enabled(s, t)
    ensures Overdue(Polled(s, t))
  {
    hide FreshCommand, Polled;
  }

  lemma StepKept(s: State, t: Steps.Turn)
    requires Kept(s)
    ensures Kept(Step(s, t))
  {
    if Enabled(s, t) {
      if t.input.StageTimer? {
        StageTimerDue(s, t);
      } else if t.input.IdleTimer? {
        IdleTimerDue(s, t);
      }
      hide Kept, Polled, Body, Mapped, Break, Finish, FreshCommand, IdleDeadline, StageDeadline, NotificationDeadline,
        Overdue, ReapDue;
      match t.input
      case EarlyLine(view, outputs) => MappedKept(s, view, outputs);
      case EarlyLinesDone => EarlyDoneKept(s);
      case ChildExited(bye) => FinishKept(s, bye, t.w);
      case _ =>
        PolledKept(s, t);
        BodyKept(Polled(s, t), t);
    }
  }

  lemma EarlyDoneKept(s: State)
    requires Kept(s) && s.life.Early?
    ensures Kept(s.(life := Looping))
  {
    hide D.Watched, Callers;
  }

  lemma {:induction false} RunKept(s: State, turns: seq<Steps.Turn>)
    requires Kept(s)
    ensures Kept(Run(s, turns))
    decreases |turns|
  {
    hide Kept, Step;
    if turns != [] {
      StepKept(s, turns[0]);
      RunKept(Step(s, turns[0]), turns[1..]);
    }
  }

  lemma BornKept(spawn: Spawn)
    ensures Kept(Born(spawn))
  {
    var o := Inherited(spawn.inherited, spawn.firstId, spawn.model);
    var empty := Born(spawn).(log := []);
    assert D.Watched([]) == D.UNSEEN;
    assert Callers(map[]) == map[];
    hide D.Watched, Emit, Callers;
    Happens(empty, empty, o);
    assert Born(spawn) == Emit(empty, o) by {
      BornEmits(spawn);
    }
  }

  lemma BornEmits(spawn: Spawn)
    ensures Born(spawn) == Emit(Born(spawn).(log := []), Inherited(spawn.inherited, spawn.firstId, spawn.model))
  {
  }

  /** Whatever the schedule, the frames, the commands and the failures: every reachable supervisor did
      what it was obliged to. */
  lemma ReachableIsKept(s: State)
    requires Reachable(s)
    ensures Kept(s)
  {
    var spawn: Spawn, turns: seq<Steps.Turn> :|
      (forall id <- spawn.inherited :: id < spawn.firstId) && s == Run(Born(spawn), turns);
    hide Kept, Run, Spawned;
    BornKept(spawn);
    RunKept(Born(spawn), turns);
  }
}
