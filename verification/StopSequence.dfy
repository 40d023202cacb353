/** The stop sequence only moves forward: interrupting, draining, ended, gone. */
module StopSequence {
  import opened Protocol
  import opened Trace
  import opened Steps
  import opened Preservation

  /** The sequence runs in both, for the same reason, with no caller lost, and once it drains it
      keeps draining under the same deadline. */
  predicate GoesOn(was: Phase, now: Phase) {
    && was.Halting? && now.Halting?
    && now.reason == was.reason
    && now.reaped == was.reaped
    && was.replies <= now.replies
    && (was.stage.Draining? ==> now.stage == was.stage)
  }

  /** The loop ended with every caller the sequence had collected. */
  predicate EndsWith(was: Phase, how: Ending) {
    was.Halting? && how.Stopped? && was.replies <= how.replies && how.reaped == was.reaped
  }

  /** What may become of a supervisor that is stopping, or past its loop. */
  predicate Forward(s: State, after: State) {
    match s.life
    case Gone => after.life.Gone?
    case Ending(how) => after.life == s.life || after.life.Gone?
    case Early => s.phase.Serving?
    case Looping =>
      s.phase.Halting? ==>
        || (after.life.Looping? && GoesOn(s.phase, after.phase))
        || (after.life.Ending? && EndsWith(s.phase, after.life.how))
        || after.life.Gone?
  }

  predicate Past(s: State) {
    s.life.Gone? || s.life.Ending? || (s.life.Looping? && s.phase.Halting?)
  }

  lemma {:induction false} DispatchAllStays(s: State, outputs: seq<(Output, World)>)
    ensures var after := DispatchAll(s, outputs).state; after.life == s.life && after.phase == s.phase
    decreases |outputs|
  {
    hide Dispatch;
    if outputs != [] {
      DispatchStays(s, outputs[0].0, outputs[0].1);
      if Dispatch(s, outputs[0].0, outputs[0].1).ok {
        DispatchAllStays(Dispatch(s, outputs[0].0, outputs[0].1).state, outputs[1..]);
      }
    }
  }

  lemma EndForward(s: State, ended: State, otherwise: Ending)
    requires s.life.Looping? && s.phase.Halting? && ended.phase == s.phase
    ensures Forward(s, End(ended, otherwise))
  {
  }

  lemma BreakForward(s: State, broken: State)
    requires s.life.Looping? && s.phase.Halting? && broken.phase == s.phase
    ensures Forward(s, Break(broken))
  {
    EndForward(s, Emit(broken.(failed := true), Killed(false, broken.clock)), Broken);
    hide End, Forward;
  }

  lemma FrameForward(s: State, base: State, outputs: seq<(Output, World)>)
    requires s.life.Looping? && s.phase.Halting? && base.life == s.life && base.phase == s.phase
    ensures var r := DispatchAll(base, outputs);
            (r.ok ==> Forward(s, AfterLine(r.state)) && Forward(s, r.state)) && Forward(s, Break(r.state))
  {
    hide DispatchAll, Break;
    DispatchAllStays(base, outputs);
    BreakForward(s, DispatchAll(base, outputs).state);
  }

  lemma CommandForward(s: State, command: Option<Command>, w: World)
    requires s.life.Looping? && s.phase.Halting?
    ensures OnCommand(s, command, w).ok && Forward(s, OnCommand(s, command, w).state)
  {
    hide HandleCommand, ChooseStage, AbandonSetup;
  }

  lemma BodyForward(s: State, t: Steps.Turn)
    requires s.life.Looping? && s.phase.Halting? && !t.input.IdleTimer?
    ensures Forward(s, Body(s, t))
  {
    hide Forward, End, Break, OnCommand, DispatchAll;
    match t.input
    case Line(view, outputs) =>
      FrameForward(s, Emit(s.(lastLine := s.clock), LineRead(s.clock)).(mapper := view), outputs);
    case StdoutEof => EndForward(s, s, Eof);
    case ReadError => BreakForward(s, s);
    case Queue(command) => CommandForward(s, command, t.w);
    case ShutdownFlag => ShutdownForward(s, t.w);
    case StageTimer => DeadlineForward(s);
    case NotificationTimer(view, outputs) =>
      FrameForward(s, s.(awaitingSince := None).(mapper := view), outputs);
    case EarlyLine(_, _) => ForwardSelf(s);
    case EarlyLinesDone => ForwardSelf(s);
    case ChildExited(_) => ForwardSelf(s);
  }

  lemma ForwardSelf(s: State)
    requires Past(s)
    ensures Forward(s, s)
  {
  }

  lemma ShutdownForward(s: State, w: World)
    requires s.life.Looping? && s.phase.Halting?
    ensures Forward(s, EnterStopping(s, Shutdown, None, false, w))
  {
    hide ChooseStage, AbandonSetup;
  }

  lemma DeadlineForward(s: State)
    requires s.life.Looping? && s.phase.Halting?
    ensures Forward(s, OnDeadline(s))
  {
    EndForward(s, Emit(Emit(s, StageDue(s.clock)), Killed(true, s.clock)), Eof);
    hide End;
  }

  lemma PolledStays(s: State, t: Steps.Turn)
    ensures Polled(s, t).life == s.life && Polled(s, t).phase == s.phase
  {
  }

  lemma ForwardFrom(s: State, polled: State, after: State)
    requires polled.life == s.life && polled.phase == s.phase
    ensures Forward(polled, after) <==> Forward(s, after)
  {
  }

  lemma FinishIsGone(s: State, bye: Farewell, w: World)
    requires s.life.Ending?
    ensures Finish(s, bye, w).life.Gone?
  {
  }

  /** Every arm of the loop moves a stop sequence forward, and none moves it back. */
  lemma StepGoesForward(s: State, t: Steps.Turn)
    requires Past(s)
    ensures Forward(s, Step(s, t)) && Past(Step(s, t))
  {
    hide Body, Polled, OrBreak, Mapped, Finish, FreshCommand, StageDeadline, NotificationDeadline;
    ForwardSelf(s);
    if Enabled(s, t) {
      match t.input
      case ChildExited(bye) => FinishIsGone(s, bye, t.w);
      case EarlyLine(_, _) =>
      case EarlyLinesDone =>
      case IdleTimer(_) => PolledStays(s, t);
      case _ =>
        PolledStays(s, t);
        BodyForward(Polled(s, t), t);
        ForwardFrom(s, Polled(s, t), Body(Polled(s, t), t));
    }
  }

  lemma ForwardTwice(a: State, b: State, c: State)
    requires Forward(a, b) && Forward(b, c)
    ensures Forward(a, c)
  {
  }

  /** So over every run: a supervisor that began to stop never serves again, loses no caller of its
      stop, and leaves its loop only through its end. */
  lemma {:induction false} StopOnlyGoesForward(s: State, turns: seq<Steps.Turn>)
    requires Past(s)
    ensures Forward(s, Run(s, turns)) && Past(Run(s, turns))
    decreases |turns|
  {
    hide Forward, Past, Step;
    if turns == [] {
      ForwardSelf(s);
    } else {
      StepGoesForward(s, turns[0]);
      StopOnlyGoesForward(Step(s, turns[0]), turns[1..]);
      ForwardTwice(s, Step(s, turns[0]), Run(s, turns));
    }
  }
}
