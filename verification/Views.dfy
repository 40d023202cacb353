/** What a supervisor's log shows of its asks and of its locked sections, and what each operation adds. */
module Views {
  import opened Protocol
  import opened Trace
  import opened Steps
  import opened Invariant
  import opened Safety
  import opened Sections
  import opened AskActs
  import A = Asks
  import H = Harness

  /** What a log shows: the answers written so far, and where the child stands among its sections. */
  datatype View = View(answers: multiset<AskId>, place: Place)

  function Look(v: View, o: Obs): View {
    if o.AskAnswered? then (if o.ok then v.(answers := v.answers + multiset{o.ask}) else v)
    else v.(place := Goes(v.place, o))
  }

  function Viewed(log: seq<Obs>): View {
    if log == [] then View(multiset{}, At(H.Live)) else Look(Viewed(log[..|log| - 1]), log[|log| - 1])
  }

  function PhaseOf(s: State): A.Phase {
    match s.life
    case Early => A.Serving
    case Looping => if s.phase.Halting? then A.Stopping else A.Serving
    case Ending(_) => A.Over
    case Gone => A.Gone
  }

  /** The stage of a child whose supervisor is not gone. */
  function StageOf(life: Life, phase: Phase): H.Stage {
    match life
    case Ending(Stopped(_, reaped)) => if reaped then H.Reaped else H.Halting
    case Ending(_) => H.Live
    case _ => if phase.Serving? then H.Live else if phase.reaped then H.Reaped else H.Halting
  }

  /** The supervisor is where its log leads. */
  predicate Placed(s: State) {
    var p := Viewed(s.log).place;
    if s.life.Gone? then p.At? && p.stage.Gone? else p == At(StageOf(s.life, s.phase))
  }

  /** The supervisor's part of the books tells of it what it is: its phase, its withdrawals, whether a
      turn is being handed off, and what it wrote. */
  predicate CoreAgrees(s: State, b: Core) {
    && b.phase == PhaseOf(s)
    && b.written == Viewed(s.log).answers
    && (b.phase.Serving? || b.phase.Stopping? ==> b.withdrawn == s.withdrawn && b.handingOff == s.setup.Some?)
  }

  function CoreFor(s: State): Core {
    Core(PhaseOf(s), s.setup.Some?, s.withdrawn, Viewed(s.log).answers)
  }

  predicate Agrees(s: State, b: Core) {
    CoreAgrees(s, b) && Placed(s)
  }

  // ---- What an operation does to them --------------------------------------------------------

  /** Both serve, or both stop, a reaped child or not. */
  predicate SameStop(was: Phase, now: Phase) {
    (now.Halting? <==> was.Halting?) && (now.Halting? ==> now.reaped == was.reaped)
  }

  /** Neither an answer nor a section. */
  predicate Mute(o: Obs) {
    !o.AskAnswered? && !Marks(o)
  }

  /** Neither where the loop stands, nor a hand-off, nor the withdrawals, nor the answers changed. */
  predicate Aside(s: State, after: State) {
    && after.life == s.life
    && SameStop(s.phase, after.phase)
    && after.reaped == s.reaped
    && after.setup.Some? == s.setup.Some?
    && after.withdrawn == s.withdrawn
    && Viewed(after.log) == Viewed(s.log)
  }

  lemma AsideTwice(a: State, b: State, c: State)
    requires Aside(a, b) && Aside(b, c)
    ensures Aside(a, c)
  {
  }

  lemma Adds(s: State, o: Obs)
    ensures Viewed(Emit(s, o).log) == Look(Viewed(s.log), o)
    ensures Emit(s, o) == s.(log := s.log + [o])
  {
    assert (s.log + [o])[..|s.log|] == s.log;
  }

  lemma EmitAside(s: State, base: State, o: Obs)
    requires base.life == s.life && SameStop(s.phase, base.phase) && base.setup.Some? == s.setup.Some?
    requires base.withdrawn == s.withdrawn && base.log == s.log && base.reaped == s.reaped && Mute(o)
    ensures Aside(s, Emit(base, o))
  {
    hide Viewed;
    Adds(base, o);
  }

  lemma KeepsAgreeing(s: State, after: State, b: Core)
    requires Agrees(s, b) && Aside(s, after)
    ensures Agrees(after, b)
  {
    hide Viewed;
  }

  lemma SendAside(s: State, what: ControlKind, waiter: Waiter, reply: Token, w: World)
    ensures Aside(s, SendAwaited(s, what, waiter, reply, w).state)
  {
    hide Emit, Aside, Viewed;
    var base := Passed(s, w.writing).(nextId := s.nextId + 1);
    EmitAside(s, base, ControlSent(s.nextId, what, Some(reply), s.clock + w.writing, w.writeOk));
    var sent := SendControl(s, what, Some(reply), w);
    if w.writeOk {
      BesideAside(sent, SendAwaited(s, what, waiter, reply, w).state);
      AsideTwice(s, sent, SendAwaited(s, what, waiter, reply, w).state);
    } else {
      EmitAside(sent, sent, Settled(reply, Failed(WriteFailed)));
      AsideTwice(s, sent, SendAwaited(s, what, waiter, reply, w).state);
    }
  }

  lemma BesideAside(s: State, after: State)
    requires after.life == s.life && SameStop(s.phase, after.phase) && after.setup.Some? == s.setup.Some?
    requires after.withdrawn == s.withdrawn && after.log == s.log && after.reaped == s.reaped
    ensures Aside(s, after)
  {
  }

  /** The loop is broken: past it, with everything else as it was. */
  lemma BreakShowsNothing(s: State)
    ensures Break(s).life.Ending? && Viewed(Break(s).log) == Viewed(s.log)
    ensures s.life.Early? || s.life.Looping? ==> StageOf(Break(s).life, Break(s).phase) == StageOf(s.life, s.phase)
  {
    hide Emit, Viewed;
    var failed := s.(failed := true);
    Adds(failed, Killed(false, s.clock));
  }

  // ---- Commands ------------------------------------------------------------------------------

  /** A command as far as asks go. */
  function Abstract(c: Command): A.Queued {
    match c
    case RespondApproval(ask, _, _) => A.Answer(ask)
    case RespondServerRequest(ask, _, _) => A.Answer(ask)
    case Compact(_, _, _) => A.Begins
    case StartTurn(_, _, _, _, _, _) => A.HandsOff
    case _ => A.Unrelated
  }

  predicate Fits(c: Command) {
    match c
    case RespondApproval(_, decision, _) => decision != ExecPolicyAmendment
    case RespondServerRequest(_, fits, _) => fits
    case _ => true
  }

  /** No turn is live and none is being handed off. */
  predicate Accepts(s: State) {
    s.mapper.active.None? && s.setup.None?
  }

  /** What serving a command does to the books: only the answer it writes, the withdrawal it uses up,
      the turn it begins or hands off. */
  predicate ServedAs(s: State, after: State, ok: bool, c: Command, w: World) {
    var b := A.QUIET.(queue := [Abstract(c)], withdrawn := s.withdrawn, handingOff := s.setup.Some?,
                      written := Viewed(s.log).answers);
    var v := A.Serve(b, w.gaveUp, Fits(c), Accepts(s), ok);
    && after.life == s.life
    && after.phase.Serving?
    && (ok ==> v.phase.Serving? && after.withdrawn == v.withdrawn && after.setup.Some? == v.handingOff)
    && (!ok ==> v.phase.Over?)
    && Viewed(after.log) == Viewed(s.log).(answers := v.written)
  }

  /** The same of an answer, branch by branch. */
  predicate JudgedAs(s: State, after: State, ok: bool, ask: AskId, kept: bool, writes: bool) {
    && after.life == s.life && after.phase.Halting? == s.phase.Halting? && after.setup.Some? == s.setup.Some?
    && after.withdrawn == (if ask in s.withdrawn then s.withdrawn - {ask} else s.withdrawn)
    && ok == (ask in s.withdrawn || kept || writes)
    && Viewed(after.log)
        == (if ask !in s.withdrawn && !kept && writes then Look(Viewed(s.log), AskAnswered(Approval, ask, None, true))
            else Viewed(s.log))
  }

  lemma AnsweredIsServed(s: State, after: State, ok: bool, c: Command, w: World)
    requires (c.RespondApproval? || c.RespondServerRequest?) && s.phase.Serving?
    requires JudgedAs(s, after, ok, c.ask, w.gaveUp || !Fits(c), w.writeOk)
    ensures ServedAs(s, after, ok, c, w)
  {
    hide Viewed;
  }

  lemma ApprovalServed(s: State, c: Command, w: World)
    requires c.RespondApproval? && s.phase.Serving?
    ensures var r := RespondToApproval(s, c, w); ServedAs(s, r.state, r.ok, c, w)
  {
    ApprovalAnswered(s, c, w);
    hide RespondToApproval, ServedAs, JudgedAs;
    AnsweredIsServed(s, RespondToApproval(s, c, w).state, RespondToApproval(s, c, w).ok, c, w);
  }

  lemma EmitTwiceAside(s: State, o: Obs, p: Obs)
    requires Mute(o) && Mute(p)
    ensures Aside(s, Emit(Emit(s, o), p))
  {
    hide Emit, Viewed, Aside;
    EmitAside(s, s, o);
    EmitAside(Emit(s, o), Emit(s, o), p);
    AsideTwice(s, Emit(s, o), Emit(Emit(s, o), p));
  }

  lemma RefusedAnswer(s: State, after: State, ask: AskId, kept: bool, writes: bool)
    requires ask in s.withdrawn && Aside(s.(withdrawn := s.withdrawn - {ask}), after)
    ensures JudgedAs(s, after, true, ask, kept, writes)
  {
    hide Viewed;
  }

  lemma KeptAnswer(s: State, after: State, ask: AskId, writes: bool)
    requires ask !in s.withdrawn && Aside(s, after)
    ensures JudgedAs(s, after, true, ask, true, writes)
  {
    hide Viewed;
  }

  lemma WrittenAnswer(s: State, wrote: State, after: State, kind: AskKind, ask: AskId, told: Option<Decision>,
                      base: State, writes: bool)
    requires ask !in s.withdrawn && Aside(s, base) && wrote == Emit(base, AskAnswered(kind, ask, told, writes))
    requires Aside(wrote, after)
    ensures JudgedAs(s, after, writes, ask, false, writes)
  {
    Adds(base, AskAnswered(kind, ask, told, writes));
    hide Viewed, Emit;
  }

  lemma ApprovalAnswered(s: State, c: Command, w: World)
    requires c.RespondApproval?
    ensures var r := RespondToApproval(s, c, w);
            JudgedAs(s, r.state, r.ok, c.ask, w.gaveUp || !Fits(c), w.writeOk)
  {
    hide Emit, Viewed, Aside, JudgedAs;
    var after := RespondToApproval(s, c, w).state;
    if c.ask in s.withdrawn {
      EmitTwiceAside(s.(withdrawn := s.withdrawn - {c.ask}), AskRefused(c.ask), Settled(c.reply, Failed(Withdrawn)));
      RefusedAnswer(s, after, c.ask, w.gaveUp || !Fits(c), w.writeOk);
    } else if w.gaveUp || c.decision == ExecPolicyAmendment {
      EmitTwiceAside(s, AskReinserted(Approval, c.ask),
                     Settled(c.reply, if w.gaveUp then Dropped else Failed(UnsupportedDecision)));
      KeptAnswer(s, after, c.ask, w.writeOk);
    } else {
      var base := Passed(s.(interruptSent := s.interruptSent || c.decision == Cancel), w.writing);
      BesideAside(s, base);
      var wrote := Emit(base, AskAnswered(Approval, c.ask, Some(c.decision), w.writeOk));
      SettleAside(wrote, c.reply, Written(w));
      WrittenAnswer(s, wrote, after, Approval, c.ask, Some(c.decision), base, w.writeOk);
    }
  }

  lemma ServerRequestServed(s: State, c: Command, w: World)
    requires c.RespondServerRequest? && s.phase.Serving?
    ensures var r := RespondToServerRequest(s, c, w); ServedAs(s, r.state, r.ok, c, w)
  {
    ServerRequestAnswered(s, c, w);
    hide RespondToServerRequest, ServedAs, JudgedAs;
    AnsweredIsServed(s, RespondToServerRequest(s, c, w).state, RespondToServerRequest(s, c, w).ok, c, w);
  }

  lemma ServerRequestAnswered(s: State, c: Command, w: World)
    requires c.RespondServerRequest?
    ensures var r := RespondToServerRequest(s, c, w);
            JudgedAs(s, r.state, r.ok, c.ask, w.gaveUp || !Fits(c), w.writeOk)
  {
    hide Emit, Viewed, Aside, JudgedAs, Settle, Publish;
    var after := RespondToServerRequest(s, c, w).state;
    if c.ask in s.withdrawn {
      var base := s.(withdrawn := s.withdrawn - {c.ask});
      var refused := Emit(base, AskRefused(c.ask));
      EmitAside(base, base, AskRefused(c.ask));
      ClearedAside(refused, c.ask, c.reply, Failed(Withdrawn));
      AsideTwice(base, refused, after);
      RefusedAnswer(s, after, c.ask, w.gaveUp || !Fits(c), w.writeOk);
    } else if w.gaveUp || !c.fits {
      var outcome := if w.gaveUp then Dropped else Failed(UnfitAnswer);
      EmitAside(s, s, AskReinserted(ServerRequest, c.ask));
      SettleAside(Emit(s, AskReinserted(ServerRequest, c.ask)), c.reply, outcome);
      AsideTwice(s, Emit(s, AskReinserted(ServerRequest, c.ask)), after);
      KeptAnswer(s, after, c.ask, w.writeOk);
    } else {
      var base := Passed(s, w.writing);
      BesideAside(s, base);
      var wrote := Emit(base, AskAnswered(ServerRequest, c.ask, None, w.writeOk));
      ClearedAside(wrote, c.ask, c.reply, Done);
      SettleAside(wrote, c.reply, Failed(WriteFailed));
      WrittenAnswer(s, wrote, after, ServerRequest, c.ask, None, base, w.writeOk);
    }
  }

  lemma ClearedAside(s: State, ask: AskId, reply: Token, outcome: Outcome)
    ensures Aside(s, Settle(Publish(s, AskCleared(ask)), reply, outcome))
  {
    hide Emit, Viewed, Aside;
    EmitTwiceAside(s, if s.reaped then OutputDropped else AskCleared(ask), Settled(reply, outcome));
  }

  /** A turn begins: the withdrawals so far are forgotten. */
  lemma BegunTurn(s: State, turn: TurnId, notice: Option<string>)
    ensures var begun := BeginTurn(s, turn, notice);
            && begun.life == s.life && begun.phase == s.phase && begun.reaped == s.reaped
            && begun.setup == s.setup && begun.withdrawn == {} && begun.mapper.active.Some?
            && Viewed(begun.log) == Viewed(s.log)
  {
    hide Emit, Viewed;
    var base := s.(withdrawn := {}, mapper := s.mapper.(active := Some(turn)));
    var o := if s.reaped then OutputDropped else TurnStarted(turn);
    Adds(base, o);
    if notice.Some? {
      Adds(Emit(base, o), if s.reaped then OutputDropped else Noticed(turn, notice.value));
    }
  }

  lemma CompactServed(s: State, c: Command, w: World)
    requires c.Compact? && s.phase.Serving?
    ensures var r := CompactTurn(s, c, w); ServedAs(s, r.state, r.ok, c, w)
  {
    hide Emit, Viewed, BeginTurn;
    if w.gaveUp || !Accepts(s) {
      Adds(s, Settled(c.reply, if w.gaveUp then Dropped else Failed(ThreadBusy)));
    } else {
      BegunTurn(s, c.turn, c.notice);
      var begun := Passed(BeginTurn(s, c.turn, c.notice), w.writing);
      var o := CompactLine(c.reply, c.turn, s.mapper.active, HandOffs(s), w.writeOk);
      Adds(begun, o);
      Adds(Emit(begun, o), Settled(c.reply, Written(w)));
    }
  }

  lemma StartServed(s: State, c: Command, w: World)
    requires c.StartTurn? && s.phase.Serving?
    ensures var r := BeginTurnSetup(s, c, w); ServedAs(s, r.state, r.ok, c, w)
  {
    hide Emit, Viewed, SendSetup;
    if w.gaveUp || !Accepts(s) {
      Adds(s, Settled(c.reply, if w.gaveUp then Dropped else Failed(ThreadBusy)));
    } else {
      var setup := TurnSetup(c.line, c.turn, c.model, c.settings, c.notice, c.reply, Mode, 0,
                             s.clock + TURN_SETTINGS_BUDGET, s.clock, s.clock, None, None);
      Adds(s, HandOffBegan(c.reply, s.clock));
      SetupSent(Emit(s, HandOffBegan(c.reply, s.clock)), setup, Mode, w);
    }
  }

  lemma SetupSent(s: State, setup: TurnSetup, stage: SetupStage, w: World)
    ensures var r := SendSetup(s, setup, stage, w);
            && r.ok == w.writeOk
            && r.state.life == s.life && r.state.phase == s.phase && r.state.reaped == s.reaped
            && r.state.withdrawn == s.withdrawn && r.state.mapper == s.mapper
            && r.state.setup.Some? == (w.writeOk || s.setup.Some?)
            && Viewed(r.state.log) == Viewed(s.log)
  {
    hide Emit, Viewed;
    var now := s.clock + w.writing;
    var base := Passed(s, w.writing).(nextId := s.nextId + 1);
    var o := SettingsSent(setup.reply, stage, WishOf(setup, stage), s.nextId, now,
                          Min(now + CONTROL_TIMEOUT, setup.budget), setup.budget, w.writeOk);
    Adds(base, o);
    Adds(Emit(base, o), Settled(setup.reply, Failed(WriteFailed)));
  }

  lemma SettleAside(s: State, reply: Token, outcome: Outcome)
    ensures Aside(s, Settle(s, reply, outcome))
  {
    hide Emit, Viewed, Aside;
    EmitAside(s, s, Settled(reply, outcome));
  }

  /** The commands that concern no ask and no turn. */
  lemma UnrelatedAside(s: State, c: Command, w: World)
    requires Abstract(c).Unrelated? && !c.Stop?
    ensures Aside(s, HandleCommand(s, c, w).state)
  {
    hide Viewed, SendAwaited, Aside, Settle;
    match c
    case Interrupt(reply) =>
      SendAside(s, UserInterrupt, UnitWaiter(reply), reply, w);
      var r := SendAwaited(s, UserInterrupt, UnitWaiter(reply), reply, w);
      BesideAside(r.state, r.state.(interruptSent := true));
      AsideTwice(s, r.state, r.state.(interruptSent := true));
    case Control(reply) => SendAside(s, PlainControl, ValueWaiter(reply), reply, w);
    case StopTask(reply) =>
      SendAside(s, TaskStop, TaskWaiter(reply), reply, w);
      SettleAside(s, reply, Done);
      SettleAside(s, reply, Failed(NotStarted));
      SettleAside(s, reply, Failed(NotARoute));
    case StopBackgroundCommand(reply) =>
      SendAside(s, CommandStop, UnitWaiter(reply), reply, w);
      SettleAside(s, reply, Failed(NoBackgroundCommand));
  }

  lemma AsideIsServed(s: State, after: State, ok: bool, c: Command, w: World)
    requires Aside(s, after) && s.phase.Serving? && Abstract(c).Unrelated?
    ensures ServedAs(s, after, ok, c, w)
  {
    hide Viewed;
  }

  lemma CommandServed(s: State, c: Command, w: World)
    requires s.phase.Serving? && !c.Stop?
    ensures var r := HandleCommand(s, c, w); ServedAs(s, r.state, r.ok, c, w)
  {
    hide ServedAs, RespondToApproval, RespondToServerRequest, CompactTurn, BeginTurnSetup, SendAwaited, Aside,
      StopSubAgent, StopCommand, InterruptTurn;
    match c
    case RespondApproval(_, _, _) => ApprovalServed(s, c, w);
    case RespondServerRequest(_, _, _) => ServerRequestServed(s, c, w);
    case Compact(_, _, _) => CompactServed(s, c, w);
    case StartTurn(_, _, _, _, _, _) => StartServed(s, c, w);
    case _ =>
      UnrelatedAside(s, c, w);
      AsideIsServed(s, HandleCommand(s, c, w).state, HandleCommand(s, c, w).ok, c, w);
  }
}
