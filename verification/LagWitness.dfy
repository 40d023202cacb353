/** A whole run from a spawn after which the supervisor believes in a model its CLI has left. */
module LagWitness {
  import opened Protocol
  import opened Trace
  import opened Steps
  import opened Invariant
  import opened Safety
  import opened TraceFacts
  import opened FaithfulCli
  import opened FaithfulRuns
  import opened Frames
  import opened FaithfulHandOffs

  const IDLE: MapperView := MapperView(None, false, false, false)
  const WELL: World := World(0, 0, true, false, None, Running, false, true, {})
  const OPUS: ModelRef := ModelRef("opus", None)
  const HAIKU: ModelRef := ModelRef("haiku", Some("max"))
  const WANTED: TurnSettings := TurnSettings("default", Some("haiku"), Some("max"), None)

  const SPAWN: Spawn := Spawn(OPUS, None, {}, 5, 0, IDLE)
  const ASKED: Command := StartTurn("hello", 7, HAIKU, WANTED, None, 3)

  const LOOPS: Steps.Turn := Steps.Turn(false, WELL, EarlyLinesDone)
  const STARTS: Steps.Turn := Steps.Turn(false, WELL, Queue(Some(ASKED)))

  function Replies(id: RequestId, payload: Payload): Steps.Turn {
    Steps.Turn(false, WELL, Line(IDLE, [(ControlResponse(id, payload), WELL)]))
  }

  const TAKEN: Payload := Success(None, None)
  const REFUSED: Payload := Error("effort not available", None)

  /** The mode and the model are accepted, the effort level is not. */
  const ANSWERS: seq<Steps.Turn> := [Replies(5, TAKEN), Replies(6, TAKEN), Replies(7, REFUSED)]

  const HELD: Cli := Cli("default", "opus", None)
  const LEFT: Cli := Cli("default", "haiku", None)

  /** The hand-off of `ASKED` is in flight with the CLI's model still `opus` to the supervisor. */
  predicate InFlight(s: State, stage: SetupStage, id: RequestId) {
    && s.life == Looping
    && s.phase == Serving
    && s.mapper.active == None
    && s.nextId == id + 1
    && s.mode == "default" && s.model == OPUS && s.effort == None
    && s.setup.Some?
    && var setup := s.setup.value;
       && setup.id == id && setup.stage == stage && setup.settings == WANTED && setup.model == HAIKU
       && (stage != Mode ==> setup.modelChange == Some("haiku") && setup.effortChange == Some("max"))
  }

  lemma ReplyDispatches(s: State, stage: SetupStage, id: RequestId, payload: Payload)
    requires InFlight(s, stage, id)
    requires OnSetupResponse(FrameBase(s, Replies(id, payload)), payload, WELL).ok
    ensures var t := Replies(id, payload);
            var base := FrameBase(s, t);
            var r := OnSetupResponse(base, payload, WELL);
            && Enabled(s, t)
            && InFlight(base, stage, id)
            && Dispatch(base, ControlResponse(id, payload), WELL) == r
            && Step(s, t).setup == r.state.setup && KeepsSettings(r.state, Step(s, t))
            && (r.state.phase.Serving? ==> Step(s, t) == Emit(r.state, LineMapped(r.state.mapper.active, r.state.clock)))
  {
    var t := Replies(id, payload);
    hide OnSetupResponse, BusyWith;
    BaseIsInFlight(s, t, stage, id);
    var base := FrameBase(s, t);
    assert DispatchAll(base, t.input.outputs) == Dispatch(base, ControlResponse(id, payload), WELL) by {
      OneOutput(base, t.input.outputs);
    }
    AfterLineIsSilent(OnSetupResponse(base, payload, WELL).state);
  }

  lemma OneOutput(s: State, outputs: seq<(Output, World)>)
    requires |outputs| == 1
    ensures DispatchAll(s, outputs) == Dispatch(s, outputs[0].0, outputs[0].1)
  {
    hide Dispatch;
    assert outputs[1..] == [];
  }

  lemma BaseIsInFlight(s: State, t: Steps.Turn, stage: SetupStage, id: RequestId)
    requires InFlight(s, stage, id) && t.input.Line? && t.input.view == IDLE
    ensures InFlight(FrameBase(s, t), stage, id)
  {
    hide BusyWith;
  }

  lemma ModeReply(s: State, id: RequestId)
    requires InFlight(s, Mode, id)
    ensures OnSetupResponse(s, TAKEN, WELL).ok && InFlight(OnSetupResponse(s, TAKEN, WELL).state, Model, id + 1)
  {
  }

  lemma ModelReply(s: State, id: RequestId)
    requires InFlight(s, Model, id)
    ensures OnSetupResponse(s, TAKEN, WELL).ok && InFlight(OnSetupResponse(s, TAKEN, WELL).state, Effort, id + 1)
  {
  }

  lemma EffortReply(s: State, id: RequestId)
    requires InFlight(s, Effort, id)
    ensures var r := OnSetupResponse(s, REFUSED, WELL);
            r.ok && r.state.setup.None? && r.state.model == OPUS && r.state.phase.Serving?
  {
  }

  lemma MappedInFlight(s: State, stage: SetupStage, id: RequestId)
    requires InFlight(s, stage, id)
    ensures InFlight(Emit(s, LineMapped(s.mapper.active, s.clock)), stage, id) && s.phase.Serving?
  {
  }

  /** One answer that leads on, with a CLI that gives it. */
  lemma ReplyLeadsOn(s: State, stage: SetupStage, id: RequestId, cli: Cli, after: Cli)
    requires InFlight(s, stage, id) && (stage == Mode || stage == Model)
    requires if stage == Mode then after == cli.(mode := "default")
             else after.mode == cli.mode && after.model == "haiku"
    ensures var t := Replies(id, TAKEN);
            && InFlight(Step(s, t), if stage == Mode then Model else Effort, id + 1)
            && FaithfulStep(map[], s, cli, t, [after])
            && StepCli(s, cli, t, [after]) == after
  {
    var t := Replies(id, TAKEN);
    BaseIsInFlight(s, t, stage, id);
    var base := FrameBase(s, t);
    assert Faithful(map[], base.setup.value, cli, TAKEN, after);
    hide FrameBase, Enabled, Faithful, OnSetupResponse, Dispatch;
    if stage == Mode {
      ModeReply(base, id);
    } else {
      ModelReply(base, id);
    }
    MappedInFlight(OnSetupResponse(base, TAKEN, WELL).state, if stage == Mode then Model else Effort, id + 1);
    ReplyDispatches(s, stage, id, TAKEN);
    hide Step, Emit, InFlight;
    OneAnswer(base, cli, t.input.outputs, after);
  }

  lemma OneAnswer(s: State, cli: Cli, outputs: seq<(Output, World)>, after: Cli)
    requires |outputs| == 1 && Answers(s, outputs[0].0)
    requires Faithful(map[], s.setup.value, cli, outputs[0].0.payload, after)
    ensures FaithfulFrame(map[], s, cli, outputs, [after]) && FrameCli(s, cli, outputs, [after]) == after
    ensures Dispatch(s, outputs[0].0, outputs[0].1).state.setup.None? ==>
              FrameEnd(s, outputs) == Some(AnsweredEnd(s, outputs[0].0.payload))
  {
    hide Dispatch, Faithful;
    assert outputs[1..] == [];
    var clis := [after];
    assert clis[1..] == [];
  }

  lemma RefusalEnds(s: State, id: RequestId, cli: Cli)
    requires InFlight(s, Effort, id)
    ensures var t := Replies(id, REFUSED);
            && Step(s, t).setup.None? && Step(s, t).model == OPUS
            && FaithfulStep(map[], s, cli, t, [cli])
            && StepCli(s, cli, t, [cli]) == cli
            && StepEnd(s, t).Some? && !Assured(StepEnd(s, t).value)
  {
    var t := Replies(id, REFUSED);
    BaseIsInFlight(s, t, Effort, id);
    var base := FrameBase(s, t);
    assert Faithful(map[], base.setup.value, cli, REFUSED, cli);
    assert !Assured(AnsweredEnd(base, REFUSED));
    hide FrameBase, Enabled, Faithful, OnSetupResponse, Dispatch, Assured;
    EffortReply(base, id);
    ReplyDispatches(s, Effort, id, REFUSED);
    hide Step;
    OneAnswer(base, cli, t.input.outputs, cli);
  }

  /** The supervisor as it enters its loop. */
  function Started(): State {
    Born(SPAWN).(life := Looping)
  }

  lemma StartsHandOff()
    ensures Step(Born(SPAWN), LOOPS) == Started()
    ensures InFlight(Step(Started(), STARTS), Mode, 5)
  {
    var s := Started();
    assert s.log == [Inherited({}, 5, OPUS)];
    assert Summary(s.log).replies.received[3] == 0 by {
      assert s.log[..|s.log| - 1] == [];
      assert Summary([]) == START;
    }
    hide Summary;
    StartIsQueued(s);
  }

  lemma StartIsQueued(s: State)
    requires s.life == Looping && s.phase == Serving && s.setup.None? && !s.commandsClosed && s.mapper == IDLE
    requires s.nextId == 5 && s.mode == "default" && s.model == OPUS && s.effort == None
    requires Summary(s.log).replies.received[3] == 0
    ensures InFlight(Step(s, STARTS), Mode, 5)
  {
    hide Summary, BusyWith;
    var p := Polled(s, STARTS);
    assert p.setup.None? && p.phase == Serving && p.life == Looping && p.mapper == IDLE;
    assert Enabled(s, STARTS);
    assert Step(s, STARTS) == OrBreak(OnCommand(p, Some(ASKED), WELL));
    StartIsServed(p);
  }

  lemma StartIsServed(p: State)
    requires p.life == Looping && p.phase == Serving && p.setup.None? && p.mapper == IDLE
    requires p.nextId == 5 && p.mode == "default" && p.model == OPUS && p.effort == None
    ensures var r := OnCommand(p, Some(ASKED), WELL); r.ok && InFlight(r.state, Mode, 5)
  {
  }

  lemma InFlightFacts(s: State, stage: SetupStage, id: RequestId)
    requires InFlight(s, stage, id)
    ensures s.setup.Some?
    ensures stage == Mode ==> Tracks(map[], s, HELD) && InStep(map[], s, HELD)
  {
  }

  lemma LagsFrom(s: State)
    requires InFlight(s, Mode, 5)
    ensures var clis := [[HELD], [LEFT], [LEFT]];
            && s.setup.Some?
            && FaithfulRun(map[], s, HELD, ANSWERS, clis)
            && Run(s, ANSWERS).setup.None? && Run(s, ANSWERS).model == OPUS
            && RunCli(s, HELD, ANSWERS, clis) == LEFT
            && RunEnd(s, ANSWERS).Some? && !Assured(RunEnd(s, ANSWERS).value)
  {
    hide Step, FaithfulStep, StepCli, StepEnd, Assured, InFlight, Run, RunCli, RunEnd, FaithfulRun;
    ReplyLeadsOn(s, Mode, 5, HELD, HELD);
    var s1 := Step(s, ANSWERS[0]);
    ReplyLeadsOn(s1, Model, 6, HELD, LEFT);
    var s2 := Step(s1, ANSWERS[1]);
    RefusalEnds(s2, 7, LEFT);
    InFlightFacts(s, Mode, 5);
    InFlightFacts(s1, Model, 6);
    InFlightFacts(s2, Effort, 7);
    ThreeSteps(s, [HELD], [LEFT], [LEFT]);
  }

  /** A supervisor as spawned on `opus`, whose CLI accepts the mode and the model `haiku` of a turn and
      refuses its effort: the turn fails, the CLI is left on `haiku`, and the supervisor still tracks
      `opus`. */
  lemma FailedHandOffCanLag()
    ensures var s := Run(Born(SPAWN), [LOOPS, STARTS]);
            var clis := [[HELD], [LEFT], [LEFT]];
            && Reachable(s) && s.setup.Some?
            && Tracks(map[], s, HELD) && InStep(map[], s, HELD)
            && FaithfulRun(map[], s, HELD, ANSWERS, clis)
            && RunCli(s, HELD, ANSWERS, clis) == LEFT
            && Run(s, ANSWERS).setup.None? && !Tracks(map[], Run(s, ANSWERS), LEFT)
            && RunEnd(s, ANSWERS).Some? && !Assured(RunEnd(s, ANSWERS).value)
  {
    hide Step, FaithfulRun, RunCli, RunEnd, Assured, Reachable, InFlight, InStep, Run;
    StartsHandOff();
    StartRuns();
    var s := Run(Born(SPAWN), [LOOPS, STARTS]);
    InFlightFacts(s, Mode, 5);
    LagsFrom(s);
    OpusIsNotHaiku(Run(s, ANSWERS));
  }

  lemma OpusIsNotHaiku(s: State)
    requires s.model == OPUS
    ensures !Tracks(map[], s, LEFT)
  {
  }

  lemma StartRuns()
    requires Step(Born(SPAWN), LOOPS) == Started()
    ensures Run(Born(SPAWN), [LOOPS, STARTS]) == Step(Started(), STARTS)
    ensures Reachable(Run(Born(SPAWN), [LOOPS, STARTS]))
  {
    hide Step;
    var turns := [LOOPS, STARTS];
    assert turns[1..] == [STARTS] && [STARTS][1..] == [];
    assert Run(Step(Started(), STARTS), []) == Step(Started(), STARTS);
    assert Run(Started(), [STARTS]) == Run(Step(Started(), STARTS), []);
  }

  lemma ThreeSteps(s: State, a: seq<Cli>, b: seq<Cli>, c: seq<Cli>)
    ensures var s1 := Step(s, ANSWERS[0]);
            var s2 := Step(s1, ANSWERS[1]);
            var s3 := Step(s2, ANSWERS[2]);
            var h1 := StepCli(s, HELD, ANSWERS[0], a);
            var h2 := StepCli(s1, h1, ANSWERS[1], b);
            && Run(s, ANSWERS) == s3
            && RunCli(s, HELD, ANSWERS, [a, b, c]) == StepCli(s2, h2, ANSWERS[2], c)
            && RunEnd(s, ANSWERS) == StepEnd(s2, ANSWERS[2])
            && (s.setup.Some? && s1.setup.Some? && s2.setup.Some?
                && FaithfulStep(map[], s, HELD, ANSWERS[0], a) && FaithfulStep(map[], s1, h1, ANSWERS[1], b)
                && FaithfulStep(map[], s2, h2, ANSWERS[2], c)
                ==> FaithfulRun(map[], s, HELD, ANSWERS, [a, b, c]))
  {
    hide Step, FaithfulStep, StepCli, StepEnd;
    var s1 := Step(s, ANSWERS[0]);
    var s2 := Step(s1, ANSWERS[1]);
    var s3 := Step(s2, ANSWERS[2]);
    var h1 := StepCli(s, HELD, ANSWERS[0], a);
    var h2 := StepCli(s1, h1, ANSWERS[1], b);
    var h3 := StepCli(s2, h2, ANSWERS[2], c);
    var later, last: seq<Steps.Turn> := ANSWERS[1..], ANSWERS[2..];
    assert later[1..] == last && last[1..] == [];
    var clis := [a, b, c];
    assert clis[1..] == [b, c] && clis[1..][1..] == [c] && clis[1..][1..][1..] == [];
    assert Run(s3, []) == s3 && Run(s2, last) == s3 && Run(s1, later) == s3;
    assert RunCli(s3, h3, [], []) == h3 && RunCli(s2, h2, last, [c]) == h3 && RunCli(s1, h1, later, [b, c]) == h3;
    assert RunEnd(s2, last) == StepEnd(s2, ANSWERS[2]) && RunEnd(s1, later) == StepEnd(s2, ANSWERS[2]);
    assert FaithfulRun(map[], s3, h3, [], []);
    assert s2.setup.Some? && FaithfulStep(map[], s2, h2, ANSWERS[2], c) ==> FaithfulRun(map[], s2, h2, last, [c]);
    assert s1.setup.Some? && FaithfulStep(map[], s1, h1, ANSWERS[1], b) && FaithfulRun(map[], s2, h2, last, [c]) ==>
        FaithfulRun(map[], s1, h1, later, [b, c]);
  }
}
