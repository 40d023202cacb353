/** What a hand-off leaves the supervisor knowing of a CLI that does what it answers, over whole runs
    of the loop. */
module FaithfulHandOffs {
  import opened Protocol
  import opened Trace
  import opened Steps
  import opened FaithfulCli
  import opened FaithfulRuns
  import opened Frames

  // ---- Moving along --------------------------------------------------------------------------

  lemma StaysInStep(catalog: Catalog, s: State, after: State, cli: Cli)
    requires KeepsSettings(s, after) && after.setup == s.setup
    ensures InStep(catalog, after, cli) <==> InStep(catalog, s, cli)
  {
  }

  lemma StaysTracked(catalog: Catalog, s: State, after: State, cli: Cli)
    requires KeepsSettings(s, after)
    ensures Tracks(catalog, after, cli) <==> Tracks(catalog, s, cli)
  {
  }

  lemma WroteTwice(a: State, b: State, c: State)
    requires a.log <= b.log && b.log <= c.log
    ensures WroteUserLine(a, c) <==> WroteUserLine(a, b) || WroteUserLine(b, c)
  {
  }

  lemma AnswerGrowsLog(s: State, payload: Payload, w: World)
    requires s.setup.Some?
    ensures s.log <= OnSetupResponse(s, payload, w).state.log
  {
    hide SendSetup, FinishTurnSetup, ModelApplied, AfterMode, Adopt, WroteUserLine, StageRefused;
    var setup := s.setup.value;
    var taken := Emit(s.(setup := None), Answered(setup.id, payload, SceneOf(s, w)));
    if payload.Success? {
      match setup.stage
      case Mode => ModeGrowsLog(taken, setup, w);
      case Model => SendSetupInStep(taken, setup, if setup.effortChange.Some? then Effort else ReadBack, w);
      case Effort => SendSetupInStep(taken, setup, ReadBack, w);
      case ReadBack =>
        AdoptInStep(taken, setup, payload, w);
        FinishInStep(Adopt(taken, setup, payload, w), setup, w);
    }
  }

  lemma ModeGrowsLog(s: State, setup: TurnSetup, w: World)
    ensures s.log <= AfterMode(s, setup, w).state.log
  {
    hide SendSetup, FinishTurnSetup, WroteUserLine;
    var now := s.(mode := setup.settings.mode);
    forall decided: TurnSetup, stage ensures now.log <= SendSetup(now, decided, stage, w).state.log {
      SendSetupInStep(now, decided, stage, w);
    }
    forall decided: TurnSetup ensures now.log <= FinishTurnSetup(now, decided, w).state.log {
      FinishInStep(now, decided, w);
    }
  }

  // ---- A frame -------------------------------------------------------------------------------

  /** With no hand-off in flight a frame is silent and no answer changes the CLI. */
  lemma {:induction false} IdleFrame(catalog: Catalog, s: State, cli: Cli, outputs: seq<(Output, World)>, clis: seq<Cli>)
    requires s.setup.None?
    ensures Silent(s, DispatchAll(s, outputs).state)
    ensures FaithfulFrame(catalog, s, cli, outputs, clis) ==> FrameCli(s, cli, outputs, clis) == cli
    decreases |outputs|
  {
    hide Dispatch, Silent, Faithful;
    BesideIsSilent(s, s);
    if outputs != [] {
      var first := Dispatch(s, outputs[0].0, outputs[0].1);
      FrameLeavesHandOff(s, outputs[0].0, outputs[0].1);
      LeavingIsSilent(s, first.state);
      StaysEnded(s, first.state);
      if first.ok {
        IdleFrame(catalog, first.state, cli, outputs[1..], if |clis| > 0 then clis[1..] else []);
        SilentTwice(s, first.state, DispatchAll(first.state, outputs[1..]).state);
      }
    }
  }

  lemma StaysEnded(s: State, after: State)
    requires Silent(s, after) && s.setup.None?
    ensures after.setup.None?
  {
  }

  /** What one frame or one step may do to a hand-off in step with the CLI. */
  predicate GoesOrEnds(catalog: Catalog, s: State, after: State, held: Cli, end: Option<HandOffEnd>)
    requires s.setup.Some?
  {
    && s.log <= after.log
    && (after.setup.Some? ==>
          && end.None?
          && InStep(catalog, after, held)
          && after.setup.value.settings == s.setup.value.settings
          && !WroteUserLine(s, after))
    && (after.setup.None? ==>
          && end.Some?
          && end.value.setup.settings == s.setup.value.settings
          && (Assured(end.value) ==> Tracks(catalog, after, held))
          && (WroteUserLine(s, after) ==>
                Tracks(catalog, after, held) && Requested(catalog, s.setup.value.settings, held)))
  }

  lemma GoesOn(catalog: Catalog, s: State, next: State, after: State, held: Cli, end: Option<HandOffEnd>)
    requires s.setup.Some? && next.setup.Some? && next.setup.value.settings == s.setup.value.settings
    requires s.log <= next.log && !WroteUserLine(s, next)
    requires GoesOrEnds(catalog, next, after, held, end)
    ensures GoesOrEnds(catalog, s, after, held, end)
  {
    hide InStep, Tracks, Requested, Assured;
    WroteTwice(s, next, after);
  }

  lemma GoesSilent(catalog: Catalog, s: State, next: State, after: State, held: Cli, end: Option<HandOffEnd>)
    requires s.setup.Some? && GoesOrEnds(catalog, s, next, held, end)
    requires Silent(next, after) && after.setup == next.setup
    ensures GoesOrEnds(catalog, s, after, held, end)
  {
    StaysInStep(catalog, next, after, held);
    StaysTracked(catalog, next, after, held);
    WroteTwice(s, next, after);
    hide InStep, Tracks, Requested, Assured, WroteUserLine;
  }

  lemma AnswerGoesOrEnds(catalog: Catalog, s: State, cli: Cli, payload: Payload, after: Cli, w: World)
    requires s.setup.Some? && InStep(catalog, s, cli)
    requires Faithful(catalog, s.setup.value, cli, payload, after)
    ensures var r := OnSetupResponse(s, payload, w).state;
            GoesOrEnds(catalog, s, r, after, if r.setup.None? then Some(AnsweredEnd(s, payload)) else None)
  {
    hide OnSetupResponse, InStep, Faithful, Tracks, Requested, WroteUserLine, Assured;
    AnswerGrowsLog(s, payload, w);
    AnswerInStep(catalog, s, cli, payload, after, w);
    var r := OnSetupResponse(s, payload, w).state;
    if r.setup.None? && Assured(AnsweredEnd(s, payload)) {
      AssuredAnswerTracks(catalog, s, cli, payload, after, w);
    }
  }

  /** Each frame keeps a hand-off in step with the CLI, or ends it. */
  lemma {:induction false} FrameInStep(catalog: Catalog, s: State, cli: Cli, outputs: seq<(Output, World)>,
                                       clis: seq<Cli>)
    requires s.setup.Some? && InStep(catalog, s, cli) && FaithfulFrame(catalog, s, cli, outputs, clis)
    ensures GoesOrEnds(catalog, s, DispatchAll(s, outputs).state, FrameCli(s, cli, outputs, clis), FrameEnd(s, outputs))
    decreases |outputs|
  {
    hide InStep, Faithful, Dispatch, Tracks, Requested, WroteUserLine, Assured;
    if outputs == [] {
      NoneWritten(s);
    } else {
      var (output, w) := outputs[0];
      var first := Dispatch(s, output, w);
      var rest := DispatchAll(first.state, outputs[1..]).state;
      if Answers(s, output) {
        DispatchAnswers(s, output, w);
        AnswerGoesOrEnds(catalog, s, cli, output.payload, clis[0], w);
        if first.ok {
          if first.state.setup.Some? {
            FrameInStep(catalog, first.state, clis[0], outputs[1..], clis[1..]);
            GoesOn(catalog, s, first.state, rest, FrameCli(first.state, clis[0], outputs[1..], clis[1..]),
                   FrameEnd(first.state, outputs[1..]));
          } else {
            IdleFrame(catalog, first.state, clis[0], outputs[1..], clis[1..]);
            StaysEnded(first.state, rest);
            GoesSilent(catalog, s, first.state, rest, clis[0], Some(AnsweredEnd(s, output.payload)));
          }
        }
      } else {
        FrameLeavesHandOff(s, output, w);
        LeftAlone(catalog, s, first.state, cli);
        if first.ok {
          FrameInStep(catalog, first.state, cli, outputs[1..], clis[1..]);
          GoesOn(catalog, s, first.state, rest, FrameCli(first.state, clis[0], outputs[1..], clis[1..]),
                 FrameEnd(first.state, outputs[1..]));
        }
      }
    }
  }

  lemma NoneWritten(s: State)
    ensures !WroteUserLine(s, s)
  {
  }

  lemma DispatchAnswers(s: State, output: Output, w: World)
    requires Answers(s, output)
    ensures Dispatch(s, output, w) == OnSetupResponse(s, output.payload, w)
  {
    hide OnSetupResponse;
  }

  lemma LeftAlone(catalog: Catalog, s: State, after: State, cli: Cli)
    requires s.setup.Some? && LeavesHandOff(s, after)
    ensures after.setup == s.setup && s.log <= after.log && !WroteUserLine(s, after)
    ensures InStep(catalog, s, cli) <==> InStep(catalog, after, cli)
  {
    StaysInStep(catalog, s, after, cli);
  }

  // ---- A step, a run -------------------------------------------------------------------------

  /** Each step of the loop keeps a hand-off in step with the CLI, or ends it. */
  lemma StepInStep(catalog: Catalog, s: State, cli: Cli, t: Steps.Turn, clis: seq<Cli>)
    requires s.setup.Some? && InStep(catalog, s, cli) && FaithfulStep(catalog, s, cli, t, clis)
    ensures GoesOrEnds(catalog, s, Step(s, t), StepCli(s, cli, t, clis), StepEnd(s, t))
  {
    hide InStep, Enabled, FaithfulFrame, FrameCli, FrameEnd, DispatchAll, WroteUserLine, Tracks, Requested, Assured,
      FrameBase;
    if !Enabled(s, t) {
      NoneWritten(s);
      StepDisabled(s, t);
    } else if HasFrame(t.input) {
      FrameLength(catalog, FrameBase(s, t), cli, t.input.outputs, clis);
      FrameStepInStep(catalog, s, cli, t, clis);
    } else {
      StepIsSilent(s, t);
      hide Step;
      var after := Step(s, t);
      if after.setup.Some? {
        StaysInStep(catalog, s, after, cli);
      } else {
        SilenceEnds(catalog, s, after, cli, clis[0]);
      }
    }
  }

  lemma FrameLength(catalog: Catalog, s: State, cli: Cli, outputs: seq<(Output, World)>, clis: seq<Cli>)
    requires FaithfulFrame(catalog, s, cli, outputs, clis)
    ensures |clis| == |outputs|
  {
  }

  lemma StepDisabled(s: State, t: Steps.Turn)
    requires !Enabled(s, t)
    ensures Step(s, t) == s
  {
  }

  lemma SilenceEnds(catalog: Catalog, s: State, after: State, cli: Cli, held: Cli)
    requires s.setup.Some? && InStep(catalog, s, cli) && Unanswered(catalog, s.setup.value, cli, held)
    requires Silent(s, after) && after.setup.None?
    ensures GoesOrEnds(catalog, s, after, held, Some(HandOffEnd(s.setup.value, s.mode, Silence)))
  {
    hide InStep, Tracks, Requested, Assured, Unanswered, WroteUserLine;
    if Assured(HandOffEnd(s.setup.value, s.mode, Silence)) {
      AssuredSilenceTracks(catalog, s, cli, held);
      StaysTracked(catalog, s, after, held);
    }
  }

  lemma FrameStepInStep(catalog: Catalog, s: State, cli: Cli, t: Steps.Turn, clis: seq<Cli>)
    requires s.setup.Some? && InStep(catalog, s, cli) && Enabled(s, t) && HasFrame(t.input)
    requires FaithfulFrame(catalog, FrameBase(s, t), cli, t.input.outputs, clis)
    ensures GoesOrEnds(catalog, s, Step(s, t), FrameCli(FrameBase(s, t), cli, t.input.outputs, clis),
                       FrameEnd(FrameBase(s, t), t.input.outputs))
  {
    StepDispatches(s, t);
    hide InStep, Enabled, FaithfulFrame, FrameCli, FrameEnd, DispatchAll, WroteUserLine, Tracks, Requested, Assured,
      Step, FrameBase;
    var base := FrameBase(s, t);
    var mapped := DispatchAll(base, t.input.outputs).state;
    var held := FrameCli(base, cli, t.input.outputs, clis);
    StaysInStep(catalog, s, base, cli);
    FrameInStep(catalog, base, cli, t.input.outputs, clis);
    GoesOn(catalog, s, base, mapped, held, FrameEnd(base, t.input.outputs));
    GoesSilent(catalog, s, mapped, Step(s, t), held, FrameEnd(base, t.input.outputs));
  }

  /** How the last step of a run ended the hand-off, if it did. */
  ghost function RunEnd(s: State, turns: seq<Steps.Turn>): Option<HandOffEnd>
    decreases |turns|
  {
    if turns == [] then None
    else if |turns| == 1 then StepEnd(s, turns[0])
    else RunEnd(Step(s, turns[0]), turns[1..])
  }

  /** Over any run of the loop, whatever else is served meanwhile: a hand-off that began in step with
      the CLI stays in step with it; if it reaches its user line, the CLI holds the turn's mode,
      effort and model (or what the catalog resolves it to) and the supervisor tracks them again; if
      it ends otherwise and its end is assured, the supervisor tracks the CLI. */
  lemma {:induction false} HandOffInStep(catalog: Catalog, s: State, cli: Cli, turns: seq<Steps.Turn>,
                                         clis: seq<seq<Cli>>)
    requires s.setup.Some? && InStep(catalog, s, cli) && FaithfulRun(catalog, s, cli, turns, clis)
    requires turns != []
    ensures GoesOrEnds(catalog, s, Run(s, turns), RunCli(s, cli, turns, clis), RunEnd(s, turns))
    decreases |turns|
  {
    hide InStep, FaithfulStep, StepCli, StepEnd, Step, WroteUserLine, Tracks, Requested, Assured;
    StepInStep(catalog, s, cli, turns[0], clis[0]);
    var next, held := Step(s, turns[0]), StepCli(s, cli, turns[0], clis[0]);
    if |turns| == 1 {
      assert Run(next, turns[1..]) == next;
      assert RunCli(next, held, turns[1..], clis[1..]) == held;
    } else {
      assert FaithfulRun(catalog, next, held, turns[1..], clis[1..]);
      HandOffInStep(catalog, next, held, turns[1..], clis[1..]);
      GoesOn(catalog, s, next, Run(s, turns), RunCli(s, cli, turns, clis), RunEnd(s, turns));
    }
  }

  // ---- The converse: what cannot be told from the supervisor's side --------------------------

  lemma OutputHasAPast(catalog: Catalog, s: State, known: Cli, output: Output, w: World, held: Cli)
    returns (cli: Cli)
    requires s.setup.Some? && InStep(catalog, s, known)
    requires var r := Dispatch(s, output, w).state; r.setup.Some? && InStep(catalog, r, held)
    ensures InStep(catalog, s, cli)
    ensures if Answers(s, output) then Faithful(catalog, s.setup.value, cli, output.payload, held) else held == cli
  {
    hide InStep, Faithful, Dispatch;
    if Answers(s, output) {
      DispatchAnswers(s, output, w);
      cli := AnswerHasAPast(catalog, s, known, output.payload, w, held);
    } else {
      FrameLeavesHandOff(s, output, w);
      LeftAlone(catalog, s, Dispatch(s, output, w).state, held);
      cli := held;
    }
  }

  lemma OutputStays(catalog: Catalog, s: State, cli: Cli, output: Output, w: World, after: Cli)
    requires s.setup.Some? && InStep(catalog, s, cli)
    requires if Answers(s, output) then Faithful(catalog, s.setup.value, cli, output.payload, after) else after == cli
    ensures var r := Dispatch(s, output, w).state; r.setup.Some? ==> InStep(catalog, r, after)
  {
    hide InStep, Faithful, Dispatch, WroteUserLine, Tracks, Requested;
    if Answers(s, output) {
      DispatchAnswers(s, output, w);
      AnswerInStep(catalog, s, cli, output.payload, after, w);
    } else {
      FrameLeavesHandOff(s, output, w);
      LeftAlone(catalog, s, Dispatch(s, output, w).state, cli);
    }
  }

  /** A frame after which the hand-off goes on: whatever the CLI may hold then, it may have come to
      hold by these very answers. */
  lemma {:induction false} FrameHasAPast(catalog: Catalog, s: State, known: Cli, outputs: seq<(Output, World)>,
                                         knownClis: seq<Cli>, held: Cli) returns (cli: Cli, clis: seq<Cli>)
    requires s.setup.Some? && InStep(catalog, s, known) && FaithfulFrame(catalog, s, known, outputs, knownClis)
    requires DispatchAll(s, outputs).state.setup.Some? && InStep(catalog, DispatchAll(s, outputs).state, held)
    ensures InStep(catalog, s, cli) && FaithfulFrame(catalog, s, cli, outputs, clis)
    ensures FrameCli(s, cli, outputs, clis) == held
    decreases |outputs|
  {
    hide InStep, Faithful, Dispatch, Silent, Tracks;
    if outputs == [] {
      return held, [];
    }
    var (output, w) := outputs[0];
    var first := Dispatch(s, output, w);
    var mid, rest := held, knownClis[1..];
    if first.ok {
      IdleStaysIdle(catalog, first.state, outputs[1..]);
      OutputStays(catalog, s, known, output, w, knownClis[0]);
      mid, rest := FrameHasAPast(catalog, first.state, knownClis[0], outputs[1..], knownClis[1..], held);
    }
    cli := OutputHasAPast(catalog, s, known, output, w, mid);
    clis := [mid] + rest;
    assert clis[1..] == rest;
  }

  lemma IdleStaysIdle(catalog: Catalog, s: State, outputs: seq<(Output, World)>)
    ensures DispatchAll(s, outputs).state.setup.Some? ==> s.setup.Some?
  {
    hide DispatchAll, Silent, FaithfulFrame, FrameCli;
    if s.setup.None? {
      IdleFrame(catalog, s, Cli("", "", None), outputs, []);
      StaysEnded(s, DispatchAll(s, outputs).state);
    }
  }

  /** A frame that ends the hand-off unassured: by these very answers the CLI may hold what is not
      tracked. */
  lemma {:induction false} FrameCanLag(catalog: Catalog, s: State, known: Cli, outputs: seq<(Output, World)>,
                                       knownClis: seq<Cli>) returns (cli: Cli, clis: seq<Cli>)
    requires s.setup.Some? && InStep(catalog, s, known) && FaithfulFrame(catalog, s, known, outputs, knownClis)
    requires FrameEnd(s, outputs).Some? && !Assured(FrameEnd(s, outputs).value)
    ensures InStep(catalog, s, cli) && FaithfulFrame(catalog, s, cli, outputs, clis)
    ensures !Tracks(catalog, DispatchAll(s, outputs).state, FrameCli(s, cli, outputs, clis))
    decreases |outputs|
  {
    hide InStep, Faithful, Dispatch, Silent, Tracks, Assured;
    var (output, w) := outputs[0];
    var first := Dispatch(s, output, w);
    if Answers(s, output) && first.state.setup.None? {
      DispatchAnswers(s, output, w);
      var held: Cli;
      cli, held := UnassuredEndCanLag(catalog, s, known, Some(output.payload));
      UnassuredAnswerKeeps(s, output.payload, w);
      StaysTracked(catalog, s, first.state, held);
      clis := [held] + seq(|outputs| - 1, i => held);
      assert clis[1..] == seq(|outputs| - 1, i => held);
      if first.ok {
        IdleFrameIsFaithful(catalog, first.state, held, outputs[1..]);
        IdleFrame(catalog, first.state, held, outputs[1..], clis[1..]);
        SilentTracks(catalog, first.state, DispatchAll(first.state, outputs[1..]).state, held);
      }
    } else {
      OutputStays(catalog, s, known, output, w, knownClis[0]);
      EndNeedsHandOff(first.state, outputs[1..]);
      var mid, rest := FrameCanLag(catalog, first.state, knownClis[0], outputs[1..], knownClis[1..]);
      cli := OutputHasAPast(catalog, s, known, output, w, mid);
      clis := [mid] + rest;
      assert clis[1..] == rest;
    }
  }

  lemma SilentTracks(catalog: Catalog, s: State, after: State, cli: Cli)
    requires Silent(s, after)
    ensures Tracks(catalog, after, cli) <==> Tracks(catalog, s, cli)
  {
    StaysTracked(catalog, s, after, cli);
  }

  lemma {:induction false} IdleFrameIsFaithful(catalog: Catalog, s: State, cli: Cli, outputs: seq<(Output, World)>)
    requires s.setup.None?
    ensures FaithfulFrame(catalog, s, cli, outputs, seq(|outputs|, i => cli))
    decreases |outputs|
  {
    hide Dispatch, Silent, Faithful;
    if outputs != [] {
      var first := Dispatch(s, outputs[0].0, outputs[0].1);
      FrameLeavesHandOff(s, outputs[0].0, outputs[0].1);
      LeavingIsSilent(s, first.state);
      StaysEnded(s, first.state);
      IdleFrameIsFaithful(catalog, first.state, cli, outputs[1..]);
      var clis := seq(|outputs|, i => cli);
      assert clis[1..] == seq(|outputs| - 1, i => cli);
    }
  }

  /** Only a hand-off in flight can end. */
  lemma {:induction false} EndNeedsHandOff(s: State, outputs: seq<(Output, World)>)
    ensures FrameEnd(s, outputs).Some? ==> s.setup.Some?
    decreases |outputs|
  {
    hide Dispatch, Silent;
    if outputs != [] && s.setup.None? {
      var first := Dispatch(s, outputs[0].0, outputs[0].1);
      FrameLeavesHandOff(s, outputs[0].0, outputs[0].1);
      LeavingIsSilent(s, first.state);
      StaysEnded(s, first.state);
      EndNeedsHandOff(first.state, outputs[1..]);
    }
  }

  /** The same of a whole step. */
  lemma StepHasAPast(catalog: Catalog, s: State, known: Cli, t: Steps.Turn, knownClis: seq<Cli>, held: Cli)
    returns (cli: Cli, clis: seq<Cli>)
    requires s.setup.Some? && InStep(catalog, s, known) && FaithfulStep(catalog, s, known, t, knownClis)
    requires Step(s, t).setup.Some? && InStep(catalog, Step(s, t), held)
    ensures InStep(catalog, s, cli) && FaithfulStep(catalog, s, cli, t, clis)
    ensures StepCli(s, cli, t, clis) == held
  {
    hide InStep, Enabled, FaithfulFrame, FrameCli, DispatchAll, FrameBase;
    if !Enabled(s, t) {
      StepDisabled(s, t);
      return held, [];
    } else if HasFrame(t.input) {
      StepDispatches(s, t);
      hide Step;
      var base := FrameBase(s, t);
      var mapped := DispatchAll(base, t.input.outputs).state;
      StaysInStep(catalog, s, base, known);
      StaysInStep(catalog, mapped, Step(s, t), held);
      cli, clis := FrameHasAPast(catalog, base, known, t.input.outputs, knownClis, held);
      FrameLength(catalog, base, cli, t.input.outputs, clis);
      StaysInStep(catalog, s, base, cli);
    } else {
      StepIsSilent(s, t);
      hide Step;
      StaysInStep(catalog, s, Step(s, t), held);
      return held, [];
    }
  }

  lemma StepCanLag(catalog: Catalog, s: State, known: Cli, t: Steps.Turn, knownClis: seq<Cli>)
    returns (cli: Cli, clis: seq<Cli>)
    requires s.setup.Some? && InStep(catalog, s, known) && FaithfulStep(catalog, s, known, t, knownClis)
    requires StepEnd(s, t).Some? && !Assured(StepEnd(s, t).value)
    ensures InStep(catalog, s, cli) && FaithfulStep(catalog, s, cli, t, clis)
    ensures !Tracks(catalog, Step(s, t), StepCli(s, cli, t, clis))
  {
    hide InStep, Enabled, FaithfulFrame, FrameCli, FrameEnd, DispatchAll, FrameBase, Assured, Tracks, Unanswered;
    if HasFrame(t.input) {
      StepDispatches(s, t);
      hide Step;
      var base := FrameBase(s, t);
      StaysInStep(catalog, s, base, known);
      cli, clis := FrameCanLag(catalog, base, known, t.input.outputs, knownClis);
      FrameLength(catalog, base, cli, t.input.outputs, clis);
      StaysInStep(catalog, s, base, cli);
      SilentTracks(catalog, DispatchAll(base, t.input.outputs).state, Step(s, t),
                   FrameCli(base, cli, t.input.outputs, clis));
    } else {
      StepIsSilent(s, t);
      hide Step;
      var held: Cli;
      cli, held := UnassuredEndCanLag(catalog, s, known, None);
      clis := [held];
      SilentTracks(catalog, s, Step(s, t), held);
    }
  }

  /** Over any run whose hand-off ends unassured: the very same run, with a CLI that answered just so,
      can leave it holding what the supervisor does not track. */
  lemma {:induction false} RunCanLag(catalog: Catalog, s: State, known: Cli, turns: seq<Steps.Turn>,
                                     knownClis: seq<seq<Cli>>) returns (cli: Cli, clis: seq<seq<Cli>>)
    requires s.setup.Some? && InStep(catalog, s, known) && FaithfulRun(catalog, s, known, turns, knownClis)
    requires RunEnd(s, turns).Some? && !Assured(RunEnd(s, turns).value)
    ensures InStep(catalog, s, cli) && FaithfulRun(catalog, s, cli, turns, clis)
    ensures !Tracks(catalog, Run(s, turns), RunCli(s, cli, turns, clis))
    decreases |turns|
  {
    hide InStep, FaithfulStep, StepCli, StepEnd, Step, WroteUserLine, Tracks, Requested, Assured;
    var t := turns[0];
    var next := Step(s, t);
    var first: seq<Cli>;
    if |turns| == 1 {
      cli, first := StepCanLag(catalog, s, known, t, knownClis[0]);
      clis := [first];
      assert Run(next, turns[1..]) == next;
      assert FaithfulRun(catalog, next, StepCli(s, cli, t, first), turns[1..], clis[1..]);
      assert RunCli(next, StepCli(s, cli, t, first), turns[1..], clis[1..]) == StepCli(s, cli, t, first);
    } else {
      StepInStep(catalog, s, known, t, knownClis[0]);
      assert FaithfulRun(catalog, next, StepCli(s, known, t, knownClis[0]), turns[1..], knownClis[1..]);
      assert next.setup.Some?;
      var mid, rest := RunCanLag(catalog, next, StepCli(s, known, t, knownClis[0]), turns[1..], knownClis[1..]);
      cli, first := StepHasAPast(catalog, s, known, t, knownClis[0], mid);
      clis := [first] + rest;
      assert clis[1..] == rest;
    }
  }

  /** Exactly when a hand-off that ended leaves the supervisor tracking the CLI, whatever faithful CLI
      gave these answers: when its end is assured, which its stage, the changes it had to make and
      how it ended decide. */
  lemma EndedHandOffTracksExactly(catalog: Catalog, s: State, known: Cli, turns: seq<Steps.Turn>,
                                  knownClis: seq<seq<Cli>>)
    requires s.setup.Some? && InStep(catalog, s, known) && FaithfulRun(catalog, s, known, turns, knownClis)
    requires RunEnd(s, turns).Some?
    ensures Assured(RunEnd(s, turns).value) <==>
              forall cli, clis :: InStep(catalog, s, cli) && FaithfulRun(catalog, s, cli, turns, clis) ==>
                Tracks(catalog, Run(s, turns), RunCli(s, cli, turns, clis))
  {
    hide InStep, FaithfulStep, StepCli, Step, Run, RunCli, RunEnd, Tracks, Requested, WroteUserLine, Assured;
    if Assured(RunEnd(s, turns).value) {
      forall cli, clis | InStep(catalog, s, cli) && FaithfulRun(catalog, s, cli, turns, clis)
        ensures Tracks(catalog, Run(s, turns), RunCli(s, cli, turns, clis))
      {
        SomeTurns(s, turns);
        HandOffInStep(catalog, s, cli, turns, clis);
      }
    } else {
      var cli, clis := RunCanLag(catalog, s, known, turns, knownClis);
    }
  }

  lemma SomeTurns(s: State, turns: seq<Steps.Turn>)
    requires RunEnd(s, turns).Some?
    ensures turns != []
  {
  }
}
