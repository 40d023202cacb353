/** The hand-off in flight serves the `StartTurn` it came from, and leaves a CLI that does what it is
    asked with what that command names. */
module FaithfulTurns {
  import opened Protocol
  import opened Trace
  import opened Steps
  import opened Safety
  import opened FaithfulCli
  import opened FaithfulRuns
  import opened FaithfulHandOffs
  import Invariant
  import DutiesKept
  import Outcomes
  import D = Duties
  import F = DutyFacts

  /** The hand-off in flight holds what the command received under its reply channel says. */
  lemma HandOffIsItsCommand(s: State) returns (r: nat)
    requires Reachable(s) && s.setup.Some?
    ensures var setup := s.setup.value;
            && r < |s.log| && s.log[r].Received?
            && s.log[r].command
               == StartTurn(setup.line, setup.turn, setup.model, setup.settings, setup.notice, setup.reply)
  {
    hide Reachable, D.Watched;
    DutiesKept.ReachableIsKept(s);
    NotGone(s);
    F.Remembers(s.log);
    assert s.log[..|s.log|] == s.log;
    r := Outcomes.WhenCame(s.log, |s.log|, DutiesKept.StartedBy(s.setup.value));
  }

  lemma NotGone(s: State)
    requires Reachable(s) && s.setup.Some?
    ensures !s.life.Gone?
  {
    hide Reachable, Summary, WaiterReplies, Invariant.Ledger, Invariant.Accounts, Invariant.Tracked, Invariant.Staged,
      Invariant.StopOk, Invariant.QuietOk;
    ReachableIsGood(s);
    assert s.setup.value.reply in Invariant.Held(s);
  }

  /** Over any run of the loop with a CLI that does what it is asked: a turn whose hand-off began in step
      with the CLI reaches its user line only with the CLI holding the mode, the effort and the model (or
      what the catalog resolves it to) that its `StartTurn` names, and the supervisor tracking them. */
  lemma StartTurnInStep(catalog: Catalog, s: State, cli: Cli, turns: seq<Steps.Turn>, clis: seq<seq<Cli>>)
    returns (r: nat)
    requires Reachable(s) && s.setup.Some? && turns != []
    requires InStep(catalog, s, cli) && FaithfulRun(catalog, s, cli, turns, clis)
    ensures r < |s.log| && s.log[r].Received? && s.log[r].command.StartTurn?
    ensures s.log[r].command.reply == s.setup.value.reply
    ensures WroteUserLine(s, Run(s, turns)) ==>
              && Requested(catalog, s.log[r].command.settings, RunCli(s, cli, turns, clis))
              && Tracks(catalog, Run(s, turns), RunCli(s, cli, turns, clis))
  {
    hide Reachable, InStep, FaithfulRun, RunCli, Run, RunEnd, Requested, Tracks, WroteUserLine, Assured;
    r := HandOffIsItsCommand(s);
    HandOffInStep(catalog, s, cli, turns, clis);
  }
}
