/** The steps of the loop that map a frame. */
module Frames {
  import opened Protocol
  import opened Trace
  import opened Steps

  /** The output answers the request of the hand-off in flight. */
  predicate Answers(s: State, output: Output) {
    s.setup.Some? && output.ControlResponse? && output.id == s.setup.value.id
  }

  predicate HasFrame(input: Input) {
    input.EarlyLine? || input.Line? || input.NotificationTimer?
  }

  /** Where the outputs of a step are dispatched from. */
  function FrameBase(s: State, t: Steps.Turn): State
    requires HasFrame(t.input)
  {
    match t.input
    case EarlyLine(view, _) => s.(mapper := view)
    case Line(view, _) =>
      var p := Polled(s, t);
      Emit(p.(lastLine := p.clock), LineRead(p.clock)).(mapper := view)
    case NotificationTimer(view, _) => Polled(s, t).(awaitingSince := None).(mapper := view)
  }

  /** Such a step dispatches its outputs; a write that fails breaks the child. */
  lemma StepIsDispatch(s: State, t: Steps.Turn)
    requires HasFrame(t.input)
    requires Enabled(s, t)
    ensures var r := DispatchAll(FrameBase(s, t), t.input.outputs);
            Step(s, t) == if !r.ok then Break(r.state) else if t.input.Line? then AfterLine(r.state) else r.state
  {
    hide DispatchAll, AfterLine, Break, Polled, FreshCommand;
  }
}
