/** Whole hand-offs in the supervisor's loop, against a CLI that does what it answers. */
module FaithfulRuns {
  import opened Protocol
  import opened Trace
  import opened Steps
  import opened FaithfulCli
  import opened Frames

  // ---- A CLI beside the loop -----------------------------------------------------------------

  /** `clis` is what the CLI holds after each output of a frame, up to the first write that fails: only
      its answers to the hand-off in flight say that it changed. */
  predicate FaithfulFrame(catalog: Catalog, s: State, cli: Cli, outputs: seq<(Output, World)>, clis: seq<Cli>)
    decreases |outputs|
  {
    && |clis| == |outputs|
    && (outputs == [] ||
        (&& (if Answers(s, outputs[0].0)
             then Faithful(catalog, s.setup.value, cli, outputs[0].0.payload, clis[0])
             else clis[0] == cli)
         && var first := Dispatch(s, outputs[0].0, outputs[0].1);
            (first.ok ==> FaithfulFrame(catalog, first.state, clis[0], outputs[1..], clis[1..]))))
  }

  /** What the CLI holds when the frame was dispatched, or when a write failed on the way. */
  function FrameCli(s: State, cli: Cli, outputs: seq<(Output, World)>, clis: seq<Cli>): Cli
    requires |clis| == |outputs|
    decreases |outputs|
  {
    if outputs == [] then cli
    else
      var first := Dispatch(s, outputs[0].0, outputs[0].1);
      if first.ok then FrameCli(first.state, clis[0], outputs[1..], clis[1..]) else clis[0]
  }

  /** One step of the loop beside a faithful CLI. A hand-off that ends without an answer leaves open
      whether the CLI took its last request. */
  ghost predicate FaithfulStep(catalog: Catalog, s: State, cli: Cli, t: Steps.Turn, clis: seq<Cli>) {
    if !Enabled(s, t) then clis == []
    else if HasFrame(t.input) then FaithfulFrame(catalog, FrameBase(s, t), cli, t.input.outputs, clis)
    else if s.setup.Some? && Step(s, t).setup.None? then
      |clis| == 1 && Unanswered(catalog, s.setup.value, cli, clis[0])
    else clis == []
  }

  ghost function StepCli(s: State, cli: Cli, t: Steps.Turn, clis: seq<Cli>): Cli {
    if Enabled(s, t) && HasFrame(t.input) && |clis| == |t.input.outputs| then
      FrameCli(FrameBase(s, t), cli, t.input.outputs, clis)
    else if clis != [] then clis[0]
    else cli
  }

  /** A run of the loop while one hand-off is in flight: it is, before each step. */
  ghost predicate FaithfulRun(catalog: Catalog, s: State, cli: Cli, turns: seq<Steps.Turn>, clis: seq<seq<Cli>>)
    decreases |turns|
  {
    && |clis| == |turns|
    && (turns == [] ||
        (&& s.setup.Some?
         && FaithfulStep(catalog, s, cli, turns[0], clis[0])
         && FaithfulRun(catalog, Step(s, turns[0]), StepCli(s, cli, turns[0], clis[0]), turns[1..], clis[1..])))
  }

  ghost function RunCli(s: State, cli: Cli, turns: seq<Steps.Turn>, clis: seq<seq<Cli>>): Cli
    requires |clis| == |turns|
    decreases |turns|
  {
    if turns == [] then cli
    else RunCli(Step(s, turns[0]), StepCli(s, cli, turns[0], clis[0]), turns[1..], clis[1..])
  }

  // ---- How a step ends a hand-off ------------------------------------------------------------

  function FrameEnd(s: State, outputs: seq<(Output, World)>): Option<HandOffEnd>
    decreases |outputs|
  {
    if outputs == [] then None
    else
      var first := Dispatch(s, outputs[0].0, outputs[0].1);
      if Answers(s, outputs[0].0) && first.state.setup.None? then Some(AnsweredEnd(s, outputs[0].0.payload))
      else if first.ok then FrameEnd(first.state, outputs[1..])
      else None
  }

  ghost function StepEnd(s: State, t: Steps.Turn): Option<HandOffEnd> {
    if s.setup.None? || !Enabled(s, t) then None
    else if HasFrame(t.input) then FrameEnd(FrameBase(s, t), t.input.outputs)
    else if Step(s, t).setup.None? then Some(HandOffEnd(s.setup.value, s.mode, Silence))
    else None
  }

  // ---- Steps that answer nothing -------------------------------------------------------------

  /** Nothing tracked changes and no user line is written; a hand-off in flight stays or ends. */
  predicate Silent(s: State, after: State) {
    && KeepsSettings(s, after)
    && s.log <= after.log
    && !WroteUserLine(s, after)
    && (after.setup == s.setup || after.setup.None?)
  }

  lemma SilentTwice(a: State, b: State, c: State)
    requires Silent(a, b) && Silent(b, c)
    ensures Silent(a, c)
  {
  }

  lemma EmitIsSilent(s: State, base: State, o: Obs)
    requires KeepsSettings(s, base) && base.log == s.log && (base.setup == s.setup || base.setup.None?)
    requires !o.UserLine?
    ensures Silent(s, Emit(base, o))
  {
  }

  /** A change beside the hand-off, with nothing observed. */
  lemma BesideIsSilent(s: State, after: State)
    requires KeepsSettings(s, after) && after.log == s.log && (after.setup == s.setup || after.setup.None?)
    ensures Silent(s, after)
  {
  }

  lemma PolledIsSilent(s: State, t: Steps.Turn)
    ensures Silent(s, Polled(s, t)) && Polled(s, t).setup == s.setup
    ensures Polled(s, t).life == s.life && Polled(s, t).phase == s.phase
  {
    hide BusyWith;
  }

  lemma EndIsSilent(s: State, otherwise: Steps.Ending)
    ensures Silent(s, End(s, otherwise)) && End(s, otherwise).setup == s.setup
  {
  }

  lemma BreakIsSilent(s: State)
    ensures Silent(s, Break(s)) && Break(s).setup == s.setup
  {
    hide Emit, End, Silent;
    var failed := s.(failed := true);
    EmitIsSilent(s, failed, Killed(false, s.clock));
    EmitKeepsSetup(failed, Killed(false, s.clock));
    EndIsSilent(Emit(failed, Killed(false, s.clock)), Broken);
    SilentTwice(s, Emit(failed, Killed(false, s.clock)), Break(s));
  }

  lemma EmitKeepsSetup(s: State, o: Obs)
    ensures Emit(s, o).setup == s.setup && Emit(s, o).life == s.life && Emit(s, o).phase == s.phase
  {
  }

  lemma CommandIsSilent(s: State, command: Option<Command>, w: World)
    requires s.setup.Some? && s.life.Looping?
    ensures Silent(s, OrBreak(OnCommand(s, command, w)))
  {
    hide Emit, HandleCommand, EnterStopping, Break, Silent, LeavesHandOff;
    if command.Some? && !command.value.Stop? {
      var c := command.value;
      var received := Emit(s, Received(c, SceneOf(s, w)));
      EmitIsSilent(s, s, Received(c, SceneOf(s, w)));
      EmitKeepsSetup(s, Received(c, SceneOf(s, w)));
      if Halted(s) {
        EmitIsSilent(received, received, Settled(c.reply, Failed(ChildStopped)));
        SilentTwice(s, received, Settle(received, c.reply, Failed(ChildStopped)));
      } else {
        CommandLeavesHandOff(received, c, w);
        LeavingIsSilent(received, HandleCommand(received, c, w).state);
        SilentTwice(s, received, HandleCommand(received, c, w).state);
      }
    } else if command.Some? {
      StoppingIsSilent(s, StopAsked, Some(command.value.reply), w);
    } else {
      var closed := s.(commandsClosed := true);
      BesideIsSilent(s, closed);
      StoppingIsSilent(closed, HarnessDropped, None, w);
      SilentTwice(s, closed, EnterStopping(closed, HarnessDropped, None, false, w));
    }
    var r := OnCommand(s, command, w);
    BreakIsSilent(r.state);
    if !r.ok {
      SilentTwice(s, r.state, Break(r.state));
    }
  }

  lemma LeavingIsSilent(s: State, after: State)
    requires LeavesHandOff(s, after)
    ensures Silent(s, after)
  {
  }

  lemma StoppingIsSilent(s: State, reason: StopReason, reply: Option<Token>, w: World)
    ensures Silent(s, EnterStopping(s, reason, reply, false, w))
  {
    hide Emit, AbandonSetup, ChooseStage, Silent, Entered;
    if Halted(s) {
      JoiningIsSilent(s, s, reply);
    } else {
      AbandonIsSilent(s);
      var abandoned := AbandonSetup(s);
      EnteredIsSilent(abandoned, reason, reply, SceneOf(s, w));
      var entered := Entered(abandoned, reason, reply, false, SceneOf(s, w));
      SilentTwice(s, abandoned, entered);
      ChosenIsSilent(entered, w);
      SilentTwice(s, entered, ChooseStage(entered, w));
    }
  }

  lemma JoiningIsSilent(s: State, base: State, reply: Option<Token>)
    requires s.phase.Halting? && base == s
    ensures Silent(s, Collect(s, reply).(phase := s.phase.(replies := s.phase.replies + Listed(reply))))
  {
  }

  lemma AbandonIsSilent(s: State)
    ensures Silent(s, AbandonSetup(s))
  {
  }

  lemma EnteredIsSilent(s: State, reason: StopReason, reply: Option<Token>, scene: Scene)
    ensures Silent(s, Entered(s, reason, reply, false, scene)) && Entered(s, reason, reply, false, scene).phase.Halting?
  {
  }

  lemma SentIsSilent(s: State, what: ControlKind, caller: Option<Token>, w: World)
    ensures Silent(s, SendControl(s, what, caller, w)) && SendControl(s, what, caller, w).setup == s.setup
    ensures SendControl(s, what, caller, w).phase == s.phase
  {
    hide Emit, Silent;
    var base := Passed(s, w.writing).(nextId := s.nextId + 1);
    EmitIsSilent(s, base, ControlSent(s.nextId, what, caller, s.clock + w.writing, w.writeOk));
    EmitKeepsSetup(base, ControlSent(s.nextId, what, caller, s.clock + w.writing, w.writeOk));
  }

  lemma ChosenIsSilent(s: State, w: World)
    requires s.phase.Halting?
    ensures Silent(s, ChooseStage(s, w))
  {
    hide Emit, Silent, SendControl, Drain;
    DrainIsSilent(s);
    SentIsSilent(s, StopInterrupt, None, w);
    var sent := SendControl(s, StopInterrupt, None, w);
    DrainIsSilent(sent);
    SilentTwice(s, sent, Drain(sent));
    if s.mapper.active.Some? && w.writeOk {
      BesideIsSilent(sent, ChooseStage(s, w));
      SilentTwice(s, sent, ChooseStage(s, w));
    }
  }

  lemma DeadlineIsSilent(s: State)
    ensures Silent(s, OnDeadline(s))
  {
    hide Emit, Silent, End, Drain, Settle;
    var due := Emit(s, StageDue(s.clock));
    EmitIsSilent(s, s, StageDue(s.clock));
    EmitKeepsSetup(s, StageDue(s.clock));
    match s.phase
    case Serving =>
      TimeoutIsSilent(due);
      SilentTwice(s, due, OnSetupDeadline(due));
    case Halting(_, _, Interrupting(_, _, _), _) =>
      DrainIsSilent(due);
      SilentTwice(s, due, OnDeadline(s));
    case Halting(_, _, Draining(_), _) =>
      var killed := Emit(due, Killed(true, s.clock));
      EmitIsSilent(due, due, Killed(true, s.clock));
      EndIsSilent(killed, Eof);
      SilentTwice(s, due, killed);
      SilentTwice(s, killed, End(killed, Eof));
  }

  lemma TimeoutIsSilent(s: State)
    ensures Silent(s, OnSetupDeadline(s))
  {
  }

  lemma DrainIsSilent(s: State)
    requires s.phase.Halting?
    ensures Silent(s, Drain(s)) && Drain(s).setup == s.setup
  {
  }

  lemma PartIsSilent(s: State, parting: Parting)
    ensures Silent(s, Part(s, parting))
  {
    hide Emit, Silent;
    match parting
    case Said => EmitIsSilent(s, s, if s.reaped then OutputDropped else Published);
    case Closed(thread, asks) =>
      EmitIsSilent(s, s, RouteLeft(thread));
      EmitIsSilent(Emit(s, RouteLeft(thread)), Emit(s, RouteLeft(thread)), AsksForgotten(asks));
      SilentTwice(s, Emit(s, RouteLeft(thread)), CloseRoute(s, thread, asks));
  }

  lemma {:induction false} PartAllIsSilent(s: State, partings: seq<Parting>)
    ensures Silent(s, PartAll(s, partings))
    decreases |partings|
  {
    hide Part, Silent;
    BesideIsSilent(s, s);
    if partings != [] {
      var next := Part(s, partings[0]);
      PartIsSilent(s, partings[0]);
      PartAllIsSilent(next, partings[1..]);
      SilentTwice(s, next, PartAll(s, partings));
    }
  }

  lemma {:induction false} AnswerStopsIsSilent(s: State, replies: seq<Token>)
    ensures Silent(s, AnswerStops(s, replies))
    decreases |replies|
  {
    hide Emit, Silent;
    BesideIsSilent(s, s);
    if replies != [] {
      EmitIsSilent(s, s, StopAnswered(replies[0]));
      AnswerStopsIsSilent(Emit(s, StopAnswered(replies[0])), replies[1..]);
      SilentTwice(s, Emit(s, StopAnswered(replies[0])), AnswerStops(s, replies));
    }
  }

  lemma EndThreadIsSilent(s: State, bye: Farewell, asks: set<AskId>)
    ensures Silent(s, EndThread(s, bye, asks))
  {
    hide Emit, Silent, PartAll, Partings, FailSetup;
    FailingIsSilent(s);
    var freed := FailSetup(s);
    BesideIsSilent(freed, freed);
    EmitIsSilent(freed, freed, AsksDropped(asks));
    var dropped := if WasReaped(s) then freed else Emit(freed, AsksDropped(asks));
    SilentTwice(s, freed, dropped);
    PartAllIsSilent(dropped, Partings(s, bye));
    var closed := PartAll(dropped, Partings(s, bye));
    SilentTwice(s, dropped, closed);
    EmitIsSilent(closed, closed, RoutesCooled);
    var cooled := Emit(closed, RoutesCooled);
    SilentTwice(s, closed, cooled);
    EmitIsSilent(cooled, cooled, LogClosed);
    SilentTwice(s, cooled, Emit(cooled, LogClosed));
  }

  lemma FailingIsSilent(s: State)
    ensures Silent(s, FailSetup(s))
  {
  }

  lemma FinishIsSilent(s: State, bye: Farewell, w: World)
    requires s.life.Ending?
    ensures Silent(s, Finish(s, bye, w))
  {
    hide Emit, Silent, EndThread, AnswerStops, WaiterReplies;
    EndThreadIsSilent(s, bye, w.asks);
    var ended := EndThread(s, bye, w.asks);
    var failed := Emit(ended.(waiters := map[]), WaitersFailed(WaiterReplies(s.waiters)));
    EmitIsSilent(ended, ended.(waiters := map[]), WaitersFailed(WaiterReplies(s.waiters)));
    SilentTwice(s, ended, failed);
    EmitIsSilent(failed, failed, EntryRemoved);
    BesideIsSilent(failed, failed);
    var left := if !WasReaped(s) && w.holdsEntry then Emit(failed, EntryRemoved) else failed;
    SilentTwice(s, failed, left);
    EmitIsSilent(left, left, ExitHandled);
    SilentTwice(s, left, Emit(left, ExitHandled));
    var exited := OnExit(s, bye, w);
    var replies := if s.life.how.Stopped? then s.life.how.replies else [];
    AnswerStopsIsSilent(exited, replies);
    SilentTwice(s, exited, AnswerStops(exited, replies));
    BesideIsSilent(AnswerStops(exited, replies), Finish(s, bye, w));
    SilentTwice(s, AnswerStops(exited, replies), Finish(s, bye, w));
  }

  lemma IdleTimerCannotFire(s: State, t: Steps.Turn)
    requires s.setup.Some? && t.input.IdleTimer?
    ensures !Enabled(s, t)
  {
    hide FreshCommand;
  }

  lemma BodyIsSilent(s: State, t: Steps.Turn)
    requires s.setup.Some? && s.life.Looping? && !HasFrame(t.input) && !t.input.IdleTimer?
    ensures Silent(s, Body(s, t))
  {
    hide Silent, OnCommand, EnterStopping, OnDeadline, End, Break, OrBreak;
    BesideIsSilent(s, s);
    match t.input
    case StdoutEof => EndIsSilent(s, Eof);
    case ReadError => BreakIsSilent(s);
    case Queue(command) => CommandIsSilent(s, command, t.w);
    case ShutdownFlag => StoppingIsSilent(s, Shutdown, None, t.w);
    case StageTimer => DeadlineIsSilent(s);
    case EarlyLinesDone =>
    case ChildExited(_) =>
  }

  /** A step without a frame is silent about a hand-off in flight. */
  lemma StepIsSilent(s: State, t: Steps.Turn)
    requires s.setup.Some? && Enabled(s, t) && !HasFrame(t.input)
    ensures Silent(s, Step(s, t))
  {
    hide Silent, Body, Polled, Finish, FreshCommand, StageDeadline, NotificationDeadline, IdleDeadline;
    match t.input
    case EarlyLinesDone => BesideIsSilent(s, Step(s, t));
    case ChildExited(bye) => FinishIsSilent(s, bye, t.w);
    case IdleTimer(_) => IdleTimerCannotFire(s, t);
    case _ =>
      PolledIsSilent(s, t);
      BodyIsSilent(Polled(s, t), t);
      SilentTwice(s, Polled(s, t), Step(s, t));
  }

  lemma FrameBaseIsSilent(s: State, t: Steps.Turn)
    requires HasFrame(t.input)
    ensures Silent(s, FrameBase(s, t)) && FrameBase(s, t).setup == s.setup
  {
    hide Silent, Emit, Polled;
    PolledIsSilent(s, t);
    var p := Polled(s, t);
    match t.input
    case EarlyLine(view, _) => BesideIsSilent(s, FrameBase(s, t));
    case Line(view, _) =>
      var spoken := p.(lastLine := p.clock);
      EmitIsSilent(p, spoken, LineRead(p.clock));
      EmitKeepsSetup(spoken, LineRead(p.clock));
      SilentTwice(s, p, Emit(spoken, LineRead(p.clock)));
      BesideIsSilent(Emit(spoken, LineRead(p.clock)), FrameBase(s, t));
      SilentTwice(s, Emit(spoken, LineRead(p.clock)), FrameBase(s, t));
    case NotificationTimer(view, _) =>
      BesideIsSilent(p, FrameBase(s, t));
      SilentTwice(s, p, FrameBase(s, t));
  }

  lemma AfterLineIsSilent(s: State)
    ensures Silent(s, AfterLine(s)) && AfterLine(s).setup == s.setup
  {
    hide Silent, Drain;
    var mapped := Emit(s, LineMapped(s.mapper.active, s.clock));
    EmitIsSilent(s, s, LineMapped(s.mapper.active, s.clock));
    if s.phase.Halting? {
      DrainIsSilent(mapped);
      SilentTwice(s, mapped, Drain(mapped));
    }
  }

  /** A step with a frame dispatches it, and is silent before and after. */
  lemma StepDispatches(s: State, t: Steps.Turn)
    requires Enabled(s, t) && HasFrame(t.input)
    ensures var base := FrameBase(s, t);
            var mapped := DispatchAll(base, t.input.outputs).state;
            && Silent(s, base) && base.setup == s.setup
            && Silent(mapped, Step(s, t)) && Step(s, t).setup == mapped.setup
  {
    hide Silent, DispatchAll, Polled, Break, AfterLine, Emit, FreshCommand, StageDeadline, NotificationDeadline,
      IdleDeadline;
    FrameBaseIsSilent(s, t);
    var mapped := DispatchAll(FrameBase(s, t), t.input.outputs).state;
    BreakIsSilent(mapped);
    AfterLineIsSilent(mapped);
    BesideIsSilent(mapped, mapped);
  }
}
