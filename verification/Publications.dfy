/** What the mapper makes of a frame reaches the thread: all of it, once, in order. */
module Publications {
  import opened Protocol
  import opened Trace
  import opened Steps
  import opened Preservation

  /** What shows of a frame outside the supervisor. */
  predicate Shows(o: Obs) {
    || o.Published? || o.MapperWrote? || o.AskRecorded? || o.AskWithdrawn? || o.RoutePublished? || o.RouteLeft?
    || o.AsksForgotten?
  }

  function Shown(log: seq<Obs>): seq<Obs>
    decreases |log|
  {
    if log == [] then []
    else
      var o := log[|log| - 1];
      Shown(log[..|log| - 1]) + (if Shows(o) then [o] else [])
  }

  /** What one output is to show, with what the environment decides. */
  function WillShow(output: Output, w: World): seq<Obs> {
    match output
    case Event => [Published]
    case Reply => [MapperWrote(w.writeOk)]
    case ControlResponse(_, _) => []
    case PendingAsk(kind, ask) => [AskRecorded(kind, ask)]
    case CancelRequest(ask) => [AskWithdrawn(ask, w.pending)]
    case RouteOpened(thread) => [RoutePublished(thread)]
    case RouteReopened(thread) => [RoutePublished(thread)]
    case RouteClosed(thread) => [RouteLeft(thread), AsksForgotten(w.asks)]
  }

  function ToShow(outputs: seq<(Output, World)>): seq<Obs>
    decreases |outputs|
  {
    if outputs == [] then [] else WillShow(outputs[0].0, outputs[0].1) + ToShow(outputs[1..])
  }

  /** Nothing was shown. */
  predicate Hides(s: State, after: State) {
    Shown(after.log) == Shown(s.log) && after.reaped == s.reaped
  }

  lemma Adds(s: State, o: Obs)
    ensures Shown(Emit(s, o).log) == Shown(s.log) + (if Shows(o) then [o] else [])
    ensures Emit(s, o) == s.(log := s.log + [o])
  {
    assert (s.log + [o])[..|s.log|] == s.log;
  }

  lemma EmitHides(s: State, base: State, o: Obs)
    requires base.log == s.log && base.reaped == s.reaped && !Shows(o)
    ensures Hides(s, Emit(base, o))
  {
    hide Shown;
    Adds(base, o);
  }

  lemma HidesTwice(a: State, b: State, c: State)
    requires Hides(a, b) && Hides(b, c)
    ensures Hides(a, c)
  {
  }

  lemma SendHides(s: State, setup: TurnSetup, stage: SetupStage, w: World)
    ensures Hides(s, SendSetup(s, setup, stage, w).state)
  {
    hide Emit, Hides, Shown;
    var base := Passed(s, w.writing).(nextId := s.nextId + 1);
    var o := SettingsSent(setup.reply, stage, WishOf(setup, stage), s.nextId, s.clock + w.writing,
                          Min(s.clock + w.writing + CONTROL_TIMEOUT, setup.budget), setup.budget, w.writeOk);
    EmitHides(s, base, o);
    var sent := Emit(base, o);
    if w.writeOk {
      BesideHides(sent, SendSetup(s, setup, stage, w).state);
      HidesTwice(s, sent, SendSetup(s, setup, stage, w).state);
    } else {
      EmitHides(sent, sent, Settled(setup.reply, Failed(WriteFailed)));
      HidesTwice(s, sent, SendSetup(s, setup, stage, w).state);
    }
  }

  lemma BesideHides(s: State, after: State)
    requires after.log == s.log && after.reaped == s.reaped
    ensures Hides(s, after)
  {
  }

  lemma BeginHides(s: State, turn: TurnId, notice: Option<string>)
    ensures Hides(s, BeginTurn(s, turn, notice))
  {
    hide Emit, Hides, Shown;
    var base := s.(withdrawn := {}, mapper := s.mapper.(active := Some(turn)));
    var o := if s.reaped then OutputDropped else TurnStarted(turn);
    EmitHides(s, base, o);
    var begun := Emit(base, o);
    if notice.Some? {
      StillReaped(base, o);
      var p := if s.reaped then OutputDropped else Noticed(turn, notice.value);
      EmitHides(begun, begun, p);
      HidesTwice(s, begun, Emit(begun, p));
    }
  }

  lemma StillReaped(s: State, o: Obs)
    ensures Emit(s, o).reaped == s.reaped
  {
  }

  lemma FinishHides(s: State, setup: TurnSetup, w: World)
    ensures Hides(s, FinishTurnSetup(s, setup, w).state)
  {
    hide Emit, Hides, Shown, BeginTurn;
    if w.gaveUp || s.mapper.active.Some? {
      EmitHides(s, s, Settled(setup.reply, if w.gaveUp then Dropped else Failed(ThreadBusy)));
    } else {
      BeginHides(s, setup.turn, setup.notice);
      var begun := BeginTurn(s, setup.turn, setup.notice);
      var late := Passed(begun, w.writing);
      var o := UserLine(setup.reply, setup.turn, setup.line, setup.settings, s.mode, s.model, s.effort,
                        s.mapper.active, HandOffs(s), w.writeOk);
      EmitHides(begun, late, o);
      EmitHides(Emit(late, o), Emit(late, o), Settled(setup.reply, Written(w)));
      HidesTwice(s, begun, Emit(late, o));
      HidesTwice(s, Emit(late, o), FinishTurnSetup(s, setup, w).state);
    }
  }

  lemma ModeHides(s: State, setup: TurnSetup, w: World)
    ensures Hides(s, AfterMode(s, setup, w).state)
  {
    hide Hides, SendSetup, FinishTurnSetup;
    var now := s.(mode := setup.settings.mode);
    BesideHides(s, now);
    forall decided: TurnSetup, stage ensures Hides(s, SendSetup(now, decided, stage, w).state) {
      SendHides(now, decided, stage, w);
      HidesTwice(s, now, SendSetup(now, decided, stage, w).state);
    }
    forall decided: TurnSetup ensures Hides(s, FinishTurnSetup(now, decided, w).state) {
      FinishHides(now, decided, w);
      HidesTwice(s, now, FinishTurnSetup(now, decided, w).state);
    }
  }

  lemma AdoptHides(s: State, setup: TurnSetup, payload: Payload, w: World)
    requires payload.Success?
    ensures Hides(s, Adopt(s, setup, payload, w))
  {
    hide Emit, Hides, Shown;
    var model := if setup.modelChange.Some? then setup.model else s.model;
    var held := s.(model := model.(effort := payload.appliedEffort), effort := payload.appliedEffort);
    BesideHides(s, held);
    EmitHides(s, held, EntrySynced(held.model));
  }

  lemma ReadBackHides(s: State, setup: TurnSetup, payload: Payload, w: World)
    requires payload.Success?
    ensures Hides(s, AfterReadBack(s, setup, payload, w).state)
  {
    hide Emit, Hides, Shown, FinishTurnSetup, Adopt, ModelApplied;
    var held := Adopt(s, setup, payload, w);
    AdoptHides(s, setup, payload, w);
    if !ModelApplied(s, setup, payload) {
      EmitHides(s, s, Settled(setup.reply, Failed(WrongModel(payload.appliedModel, WantedModel(s, setup)))));
    } else if setup.effortChange.Some? && payload.appliedEffort != setup.effortChange {
      var untaken := EffortNotTaken(setup.effortChange.value, WantedModel(s, setup));
      EmitHides(held, held, Settled(setup.reply, Failed(untaken)));
      HidesTwice(s, held, AfterReadBack(s, setup, payload, w).state);
    } else {
      FinishHides(held, setup, w);
      HidesTwice(s, held, FinishTurnSetup(held, setup, w).state);
    }
  }

  /** An answer to a control request shows nothing. */
  lemma ResponseHides(s: State, id: RequestId, payload: Payload, w: World)
    ensures Hides(s, OnControlResponse(s, id, payload, w).state)
  {
    hide Emit, Hides, Shown, AfterMode, AfterReadBack, SendSetup, StageRefused, WaiterOutcome;
    var o := Answered(id, payload, SceneOf(s, w));
    var after := OnControlResponse(s, id, payload, w).state;
    if s.setup.Some? && s.setup.value.id == id {
      var setup := s.setup.value;
      var taken := Emit(s.(setup := None), o);
      EmitHides(s, s.(setup := None), o);
      if !payload.Success? {
        EmitHides(taken, taken, Settled(setup.reply, Failed(StageRefused(setup.stage, payload))));
      } else {
        match setup.stage
        case Mode => ModeHides(taken, setup, w);
        case Model => SendHides(taken, setup, if setup.effortChange.Some? then Effort else ReadBack, w);
        case Effort => SendHides(taken, setup, ReadBack, w);
        case ReadBack => ReadBackHides(taken, setup, payload, w);
      }
      HidesTwice(s, taken, after);
    } else if id in s.waiters {
      var taken := Emit(s.(waiters := s.waiters - {id}), o);
      EmitHides(s, s.(waiters := s.waiters - {id}), o);
      if !s.waiters[id].NobodyWaits? {
        EmitHides(taken, taken, Settled(s.waiters[id].reply, WaiterOutcome(s.waiters[id], payload)));
        HidesTwice(s, taken, after);
      }
    } else {
      EmitHides(s, s.(abandoned := s.abandoned - {id}), o);
      EmitHides(s, s, Unmatched(id));
    }
  }

  /** One output shows what it is to show. */
  lemma OutputShows(s: State, output: Output, w: World)
    requires !s.reaped
    ensures Shown(Dispatch(s, output, w).state.log) == Shown(s.log) + WillShow(output, w)
  {
    hide Emit, Shown, OnControlResponse;
    match output
    case Event => Adds(s, Published);
    case Reply => Adds(Passed(s, w.writing), MapperWrote(w.writeOk));
    case ControlResponse(id, payload) => ResponseHides(s, id, payload, w);
    case PendingAsk(kind, ask) => Adds(s, AskRecorded(kind, ask));
    case CancelRequest(ask) => CancelShows(s, ask, w.pending);
    case RouteOpened(thread) => Adds(s, RoutePublished(thread));
    case RouteReopened(thread) => Adds(s, RoutePublished(thread));
    case RouteClosed(thread) =>
      Adds(s, RouteLeft(thread));
      Adds(Emit(s, RouteLeft(thread)), AsksForgotten(w.asks));
  }

  lemma CancelShows(s: State, ask: AskId, found: Option<AskKind>)
    ensures Shown(OnCancelRequest(s, ask, found).log) == Shown(s.log) + [AskWithdrawn(ask, found)]
  {
    hide Shown;
    var noted := Emit(s, AskWithdrawn(ask, found));
    Adds(s, AskWithdrawn(ask, found));
    Adds(noted, if s.reaped then OutputDropped else AskCleared(ask));
  }

  /** A frame of a child that was not reaped shows all its outputs, each once and in order; a write that
      fails ends it, and its output is the last. */
  lemma {:induction false} FrameShows(s: State, outputs: seq<(Output, World)>) returns (m: nat)
    requires !s.reaped
    ensures m <= |outputs|
    ensures Shown(DispatchAll(s, outputs).state.log) == Shown(s.log) + ToShow(outputs[..m])
    ensures DispatchAll(s, outputs).ok ==> m == |outputs|
    ensures !DispatchAll(s, outputs).ok ==> m > 0
    decreases |outputs|
  {
    hide Dispatch, Shown, WillShow;
    m := 0;
    if outputs != [] {
      var first := Dispatch(s, outputs[0].0, outputs[0].1);
      OutputShows(s, outputs[0].0, outputs[0].1);
      DispatchStays(s, outputs[0].0, outputs[0].1);
      if first.ok {
        var rest := FrameShows(first.state, outputs[1..]);
        m := rest + 1;
        assert outputs[..m][1..] == outputs[1..][..rest];
      } else {
        m := 1;
        assert outputs[..m][1..] == [];
      }
    }
  }

  /** What a parting is to show. */
  function ToPart(partings: seq<Parting>): seq<Obs>
    decreases |partings|
  {
    if partings == [] then []
    else
      (match partings[0]
       case Said => [Published]
       case Closed(thread, asks) => [RouteLeft(thread), AsksForgotten(asks)])
      + ToPart(partings[1..])
  }

  lemma {:induction false} PartingsShow(s: State, partings: seq<Parting>)
    requires !s.reaped
    ensures Shown(PartAll(s, partings).log) == Shown(s.log) + ToPart(partings)
    decreases |partings|
  {
    hide Emit, Shown;
    if partings != [] {
      var next := Part(s, partings[0]);
      match partings[0] {
        case Said =>
          Adds(s, Published);
          StillReaped(s, Published);
        case Closed(thread, asks) =>
          Adds(s, RouteLeft(thread));
          Adds(Emit(s, RouteLeft(thread)), AsksForgotten(asks));
          StillReaped(s, RouteLeft(thread));
          StillReaped(Emit(s, RouteLeft(thread)), AsksForgotten(asks));
      }
      PartingsShow(next, partings[1..]);
    }
  }

  /** When a child that was not reaped is gone, its open turns and routes are closed as the mapper says,
      and every route it left open is left with its asks. */
  lemma ExitShows(s: State, bye: Farewell, asks: set<AskId>)
    requires s.life.Ending? && !s.reaped
    ensures Shown(EndThread(s, bye, asks).log) == Shown(s.log) + ToPart(Partings(s, bye))
  {
    hide Emit, Shown, PartAll, Partings, WasReaped;
    var freed := FailSetup(s);
    if s.setup.Some? {
      Adds(s.(setup := None), Settled(s.setup.value.reply, Failed(ChildStopped)));
      StillReaped(s.(setup := None), Settled(s.setup.value.reply, Failed(ChildStopped)));
    }
    var dropped := if WasReaped(s) then freed else Emit(freed, AsksDropped(asks));
    Adds(freed, AsksDropped(asks));
    StillReaped(freed, AsksDropped(asks));
    PartingsShow(dropped, Partings(s, bye));
    var parted := PartAll(dropped, Partings(s, bye));
    Adds(parted, RoutesCooled);
    Adds(Emit(parted, RoutesCooled), LogClosed);
  }
}
