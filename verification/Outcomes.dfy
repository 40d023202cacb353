/** What every reachable supervisor owes its callers, its turns and its child, in terms of what it did:
    which observation follows which, and with what content. */
module Outcomes {
  import opened Protocol
  import opened Trace
  import opened Steps
  import opened Safety
  import opened Guarantees
  import DutiesKept
  import TraceFacts
  import Invariant
  import D = Duties
  import F = DutyFacts

  lemma ReachableIsLawful(s: State)
    requires Reachable(s)
    ensures F.Lawful(s.log)
  {
    hide Reachable, D.Watched;
    DutiesKept.ReachableIsKept(s);
  }

  /** An event that the supervisor does not cause: what it found, and what followed it at once. */
  lemma EventAt(s: State, j: nat)
    requires Reachable(s) && j < |s.log| && !F.Act(s.log[j])
    ensures F.Lawful(s.log)
    ensures var w := D.Watched(s.log[..j]);
            w.ok && w.agenda.Nothing? && D.Spontaneous(w, s.log[j]) && F.Performed(s.log, j + 1, D.Owed(w, s.log[j]))
  {
    hide Reachable, F.Lawful, D.Watched, D.Spontaneous, D.Owed, F.Performed, F.Act;
    ReachableIsLawful(s);
    F.Happened(s.log, j);
  }

  // ---- What a caller learns ------------------------------------------------------------------

  /** What the answer to a request means to the caller that waits for it. */
  function AnswerTells(what: ControlKind, payload: Payload): Outcome {
    match payload
    case Success(_, _) => if what.PlainControl? then Value(payload) else Done
    case Error(message, _) => Failed(Refused(message))
    case Odd => Failed(OddResponse)
  }

  /** The CLI's answer to a caller's request is what that caller is told, and at once. */
  lemma CallerLearnsItsAnswer(s: State, i: nat, j: nat, reply: Token)
    requires Reachable(s) && i < j < |s.log|
    requires s.log[i].ControlSent? && s.log[i].ok && s.log[i].caller == Some(reply)
    requires s.log[j].Answered? && s.log[j].id == s.log[i].id
    ensures j + 1 < |s.log|
    ensures s.log[j + 1] == Settled(reply, AnswerTells(s.log[i].what, s.log[j].payload))
  {
    hide Reachable, D.Watched, D.Spontaneous, F.AskedBy, D.Owed;
    EventAt(s, j);
    var w, id := D.Watched(s.log[..j]), s.log[i].id;
    WaitsUntilAnswered(s, i, j, reply);
    NoHandOffHasIt(s, i, j);
    AnswerIsTold(w, s.log[i], s.log[j]);
  }

  lemma AnswerIsTold(w: D.Watch, sent: Obs, answer: Obs)
    requires sent.ControlSent? && sent.caller.Some? && answer.Answered? && answer.id == sent.id
    requires answer.id in w.callers && w.callers[answer.id] == D.Caller(sent.caller, sent.what.PlainControl?)
    requires w.underway.Some? ==> w.underway.value.id != answer.id
    ensures D.Owed(w, answer) == D.Tell(sent.caller.value, AnswerTells(sent.what, answer.payload))
  {
  }

  lemma WaitsUntilAnswered(s: State, i: nat, j: nat, reply: Token)
    requires Reachable(s) && i < j < |s.log|
    requires s.log[i].ControlSent? && s.log[i].ok && s.log[i].caller == Some(reply)
    requires s.log[j].Answered? && s.log[j].id == s.log[i].id
    ensures var w := D.Watched(s.log[..j]);
            && s.log[i].id in w.callers
            && w.callers[s.log[i].id] == D.Caller(Some(reply), s.log[i].what.PlainControl?)
  {
    hide Reachable, D.Watched, F.Lawful;
    var id := s.log[i].id;
    forall l | i < l < j ensures !F.CallsFor(s.log[l], id) {
      NotCalledFor(s, i, l, j);
    }
    ReachableIsLawful(s);
    LawfulIsOk(s.log);
    F.StillWaits(s.log, i, j, id, D.Caller(Some(reply), s.log[i].what.PlainControl?));
  }

  lemma LawfulIsOk(log: seq<Obs>)
    requires F.Lawful(log)
    ensures D.Watched(log).ok
  {
  }

  /** Ids are written and answered once, and nothing is answered once the child is gone. */
  lemma NotCalledFor(s: State, i: nat, l: nat, j: nat)
    requires Reachable(s) && i < l < j < |s.log|
    requires s.log[i].ControlSent? && s.log[i].ok && s.log[j].Answered? && s.log[j].id == s.log[i].id
    ensures !F.CallsFor(s.log[l], s.log[i].id)
  {
    hide Reachable, D.Watched, D.Owed, F.Performed, F.Lawful;
    EventAt(s, j);
    RequestsOnce(s, l, j, s.log[i].id);
    if s.log[l].ControlSent? && s.log[l].id == s.log[i].id {
      WrittenIdIsOld(s, i, l);
    } else if s.log[l].WaitersFailed? {
      EventAt(s, l);
      AfterFailureNothing(s, l, j);
      assert false;
    }
  }

  lemma WrittenIdIsOld(s: State, i: nat, l: nat)
    requires Reachable(s) && i < l < |s.log|
    requires s.log[i].ControlSent? && s.log[i].ok && s.log[l].ControlSent?
    ensures s.log[l].id != s.log[i].id
  {
    hide Reachable, Summary;
    ReachablePair(s, i, l);
  }

  lemma AfterFailureNothing(s: State, l: nat, j: nat)
    requires l < j < |s.log| && s.log[l].WaitersFailed?
    requires D.Watched(s.log[..l]).agenda.Nothing?
    ensures D.Watched(s.log[..j]).over
  {
    hide D.Watched, D.Follow, D.Spontaneous, F.HaltFrom;
    F.Unfolds(s.log, l);
    F.OnwardOne(D.Watched(s.log[..l]), s.log[l]);
    F.OnwardAll(s.log, l + 1, j);
  }

  lemma NoHandOffHasIt(s: State, i: nat, j: nat)
    requires Reachable(s) && i < j < |s.log| && s.log[i].ControlSent? && s.log[i].ok
    ensures var w := D.Watched(s.log[..j]); w.underway.Some? ==> w.underway.value.id != s.log[i].id
  {
    hide Reachable, D.Watched, F.Lawful;
    ReachableIsLawful(s);
    LawfulIsOk(s.log);
    if D.Watched(s.log[..j]).underway.Some? && D.Watched(s.log[..j]).underway.value.id == s.log[i].id {
      var k := F.UnderwaySent(s.log, j);
      if k < i {
        RequestsOnce(s, k, i, s.log[i].id);
      } else if i < k {
        RequestsOnce(s, i, k, s.log[i].id);
      }
      assert false;
    }
  }

  // ---- What was done for what ----------------------------------------------------------------

  /** What the supervisor did was due to an event before it. */
  lemma ActAt(s: State, j: nat) returns (k: nat)
    requires Reachable(s) && j < |s.log| && F.Act(s.log[j]) && !s.log[j].Settled? && !s.log[j].OutputDropped?
             && !s.log[j].StopJoined?
    ensures k < j && D.Watched(s.log).ok
    ensures var w := D.Watched(s.log[..k]);
            && w.ok && w.agenda.Nothing? && D.Spontaneous(w, s.log[k]) && F.Performed(s.log, k + 1, D.Owed(w, s.log[k]))
            && F.Nth(D.Owed(w, s.log[k]), j - k - 1) == Some(s.log[j])
            && F.Explained(w, s.log[k], j - k - 1)
  {
    hide Reachable, F.Lawful, D.Watched, D.Owed, F.Performed, F.Act, F.Explained;
    ReachableIsLawful(s);
    LawfulIsOk(s.log);
    k := F.Cause(s.log, j);
    F.DutyDone(s.log, k);
    NeverByItself(D.Watched(s.log[..k]), s.log[j]);
    F.OwedHolds(D.Watched(s.log[..k]), s.log[k], if k < j then j - k - 1 else 0);
  }

  lemma NeverByItself(w: D.Watch, o: Obs)
    requires F.Act(o) && !o.Settled? && !o.OutputDropped? && !o.StopJoined?
    ensures !D.Spontaneous(w, o)
  {
  }

  /** What is due further on, as the log shows it. */
  lemma Due(s: State, k: nat, agenda: D.Agenda, n: nat)
    requires F.Performed(s.log, k + 1, agenda) && F.Nth(agenda, n).Some?
    ensures k + 1 + n < |s.log| && s.log[k + 1 + n] == F.Nth(agenda, n).value
  {
    F.NthDone(s.log, k + 1, agenda, n);
  }

  // ---- The turn that was asked for -----------------------------------------------------------

  /** The turn opens right before `j`, with the notice it was asked for and no other. */
  predicate OpensBefore(log: seq<Obs>, j: nat, turn: TurnId, notice: Option<string>)
    requires j < |log|
  {
    if notice.Some? then j > 1 && log[j - 1] == Noticed(turn, notice.value) && log[j - 2] == TurnStarted(turn)
    else j > 0 && log[j - 1] == TurnStarted(turn)
  }

  lemma OpenedBefore(s: State, k: nat, j: nat, agenda: D.Agenda, turn: TurnId, notice: Option<string>)
    requires k < j < |s.log| && F.Performed(s.log, k + 1, agenda) && F.Opened(agenda, j - k - 1, turn, notice)
    ensures OpensBefore(s.log, j, turn, notice)
  {
    hide F.Performed, F.Nth;
    Due(s, k, agenda, j - k - 2);
    if notice.Some? {
      Due(s, k, agenda, j - k - 3);
    }
  }

  /** A user line is that of a `StartTurn` received before under its reply channel: its line, its turn,
      its settings, behind its notice, with the CLI holding the settings that command asked for; and its
      caller learns whether it was written. */
  lemma UserLineIsTheCommands(s: State, j: nat) returns (r: nat, model: ModelRef, notice: Option<string>)
    requires Reachable(s) && j < |s.log| && s.log[j].UserLine?
    ensures var o := s.log[j];
            && r < j && s.log[r].Received?
            && s.log[r].command == StartTurn(o.line, o.turn, model, o.settings, notice, o.reply)
            && SettingsHold(s.log[r].command.settings, o.mode, o.model, o.effort)
            && OpensBefore(s.log, j, o.turn, notice)
            && j + 1 < |s.log|
            && s.log[j + 1] == Settled(o.reply, if o.ok then Done else Failed(WriteFailed))
  {
    hide Reachable, D.Watched, D.Spontaneous, F.Performed, F.Nth, F.Opened, D.Handed, D.Owed;
    var k := ActAt(s, j);
    var w := D.Watched(s.log[..k]);
    UserLineCause(w, s.log[k], j - k - 1);
    var start, agenda := w.underway.value.start, D.Owed(w, s.log[k]);
    F.Remembers(s.log[..k]);
    r := WhenCame(s.log, k, start);
    model, notice := start.model, start.notice;
    OpenedBefore(s, k, j, agenda, start.turn, start.notice);
    Due(s, k, agenda, j - k);
    var began, started := UserLineReady(s, j);
  }

  lemma UserLineCause(w: D.Watch, o: Obs, n: nat)
    requires F.Explained(w, o, n) && F.Nth(D.Owed(w, o), n).Some? && F.Nth(D.Owed(w, o), n).value.UserLine?
    ensures o.Answered? && w.underway.Some?
    ensures var line, start := F.Nth(D.Owed(w, o), n).value, w.underway.value.start;
            && line.reply == start.reply && line.turn == start.turn && line.line == start.line
            && line.settings == start.settings
            && F.Opened(D.Owed(w, o), n, line.turn, start.notice)
            && F.Tells(D.Owed(w, o), n, line.reply, if line.ok then Done else Failed(WriteFailed))
  {
    hide F.Nth, F.Opened, D.Handed, D.Service, D.Learned, F.ServiceHolds;
    if o.Received? {
      NoUserLine(w, o.command, o.scene, n);
    }
  }

  lemma NoUserLine(w: D.Watch, c: Command, scene: Scene, n: nat)
    ensures F.Nth(D.Service(w, c, scene), n).Some? ==> !F.Nth(D.Service(w, c, scene), n).value.UserLine?
  {
    hide D.Service, F.Nth, F.Opened;
    F.CommandHolds(w, c, scene, n);
  }

  lemma WhenCame(log: seq<Obs>, k: nat, start: D.Start) returns (r: nat)
    requires k <= |log| && F.Came(log[..k], start)
    ensures r < k && log[r].Received?
    ensures log[r].command == StartTurn(start.line, start.turn, start.model, start.settings, start.notice, start.reply)
  {
    var i :| 0 <= i < |log[..k]| && log[..k][i].Received? && D.StartOf(log[..k][i].command) == Some(start);
    r := i;
  }

  /** The read-back names the model the settings name, or what the catalog resolves it to. */
  predicate Confirms(settings: TurnSettings, payload: Payload) {
    && payload.Success? && payload.appliedModel.Some?
    && (settings.model.Some? ==>
          payload.appliedModel == settings.model || payload.appliedModel == settings.resolvedModel)
  }

  /** A user line comes at once after the CLI's success with a request of its hand-off: with its mode, if
      nothing else had to change, or with its read-back, which confirmed the model and named the very
      effort the line is written under. */
  lemma UserLineIsConfirmed(s: State, j: nat) returns (i: nat, k: nat)
    requires Reachable(s) && j < |s.log| && s.log[j].UserLine?
    ensures i < k < j <= k + 4
    ensures s.log[i].SettingsSent? && s.log[i].ok && s.log[i].reply == s.log[j].reply
    ensures s.log[k].Answered? && s.log[k].id == s.log[i].id && s.log[k].payload.Success?
    ensures s.log[i].stage == Mode || s.log[i].stage == ReadBack
    ensures s.log[i].stage == ReadBack ==>
              && Confirms(s.log[j].settings, s.log[k].payload)
              && s.log[j].effort == s.log[k].payload.appliedEffort
  {
    hide Reachable, D.Watched, D.Spontaneous, F.Performed, F.Nth, F.Opened, D.Handed, D.Owed;
    k := ActAt(s, j);
    var w := D.Watched(s.log[..k]);
    UserLineCause(w, s.log[k], j - k - 1);
    UserLineNeeds(w, s.log[k], j - k - 1);
    i := F.UnderwaySent(s.log, k);
  }

  lemma UserLineNeeds(w: D.Watch, o: Obs, n: nat)
    requires o.Answered? && w.underway.Some?
    requires F.Nth(D.Owed(w, o), n).Some? && F.Nth(D.Owed(w, o), n).value.UserLine?
    ensures var line, u := F.Nth(D.Owed(w, o), n).value, w.underway.value;
            && o.id == u.id && o.payload.Success? && n <= 3
            && (u.stage == Mode || u.stage == ReadBack)
            && (u.stage == ReadBack ==> Confirms(u.start.settings, o.payload) && line.effort == o.payload.appliedEffort)
  {
    var agenda := D.Owed(w, o);
    F.Unroll(agenda, n);
    if n >= 5 {
      LongIsNothing(w, o, n);
    }
  }

  lemma LongIsNothing(w: D.Watch, o: Obs, n: nat)
    requires n >= 5 && o.Answered?
    ensures F.Nth(D.Owed(w, o), n).None?
  {
    F.Unroll(D.Owed(w, o), n);
    F.NothingNth(n - 5);
  }

  /** A compaction's line is that of a `Compact` just received. */
  lemma CompactLineIsTheCommands(s: State, j: nat) returns (r: nat, notice: Option<string>)
    requires Reachable(s) && j < |s.log| && s.log[j].CompactLine?
    ensures var o := s.log[j];
            && r < j && s.log[r].Received? && s.log[r].command == Compact(o.turn, notice, o.reply)
            && OpensBefore(s.log, j, o.turn, notice)
            && j + 1 < |s.log|
            && s.log[j + 1] == Settled(o.reply, if o.ok then Done else Failed(WriteFailed))
  {
    hide Reachable, D.Watched, D.Spontaneous, F.Performed, F.Nth, F.Opened, D.Owed;
    r := ActAt(s, j);
    var w := D.Watched(s.log[..r]);
    CompactLineCause(w, s.log[r], j - r - 1);
    notice := s.log[r].command.notice;
    OpenedBefore(s, r, j, D.Owed(w, s.log[r]), s.log[j].turn, notice);
    Due(s, r, D.Owed(w, s.log[r]), j - r);
  }

  lemma CompactLineCause(w: D.Watch, o: Obs, n: nat)
    requires F.Explained(w, o, n) && F.Nth(D.Owed(w, o), n).Some? && F.Nth(D.Owed(w, o), n).value.CompactLine?
    ensures o.Received? && o.command.Compact?
    ensures var line := F.Nth(D.Owed(w, o), n).value;
            && line.reply == o.command.reply && line.turn == o.command.turn
            && F.Opened(D.Owed(w, o), n, line.turn, o.command.notice)
            && F.Tells(D.Owed(w, o), n, line.reply, if line.ok then Done else Failed(WriteFailed))
  {
    hide F.Nth, F.Opened, D.Handed, D.Service, D.Learned;
  }

  /** What a `StartTurn` with these settings has the CLI asked at each stage. */
  function AskedFor(settings: TurnSettings, stage: SetupStage): Wish {
    match stage
    case Mode => SetMode(settings.mode)
    case Model => SetModel(settings.model)
    case Effort => SetEffort(settings.effort)
    case ReadBack => ReadSettings
  }

  /** A settings request asks for what the `StartTurn` received under its reply channel names. */
  lemma RequestIsTheCommands(s: State, j: nat) returns (r: nat)
    requires Reachable(s) && j < |s.log| && s.log[j].SettingsSent?
    ensures var o := s.log[j];
            && r < j && s.log[r].Received? && s.log[r].command.StartTurn? && s.log[r].command.reply == o.reply
            && o.wish == AskedFor(s.log[r].command.settings, o.stage)
  {
    hide Reachable, F.Lawful, D.Watched;
    ReachableIsLawful(s);
    LawfulIsOk(s.log);
    F.SentByHand(s.log, j);
    F.Remembers(s.log[..j]);
    r := WhenCame(s.log, j, D.Watched(s.log[..j]).hand.value.start);
  }

  /** How a refused settings request is reported. */
  function RefusalTells(stage: SetupStage, payload: Payload): Failure
    requires !payload.Success?
  {
    if payload.Odd? then OddResponse
    else if stage == Model && payload.code == Some("catalog_unknown") then UnknownModel(payload.message)
    else Refused(payload.message)
  }

  /** How a turn begins once its settings are applied: unless its caller gave up or a turn is live. */
  predicate Begins(next: Obs, reply: Token, scene: Scene) {
    if scene.w.gaveUp then next == Settled(reply, Dropped)
    else if scene.active.Some? then next == Settled(reply, Failed(ThreadBusy))
    else next.TurnStarted?
  }

  /** While its caller was told nothing, the answer to a hand-off's request fails the hand-off with that
      refusal, or takes it on: to the effort or the read-back, and from the mode and the read-back also
      to its turn, or to the reason why it cannot begin. */
  lemma HandOffLearnsItsAnswer(s: State, i: nat, j: nat)
    requires Reachable(s) && i < j < |s.log|
    requires s.log[i].SettingsSent? && s.log[i].ok && s.log[j].Answered? && s.log[j].id == s.log[i].id
    requires forall l | i < l < j :: !(s.log[l].Settled? && s.log[l].reply == s.log[i].reply)
    ensures j + 1 < |s.log|
    ensures var reply, stage, payload, scene := s.log[i].reply, s.log[i].stage, s.log[j].payload, s.log[j].scene;
            var next := s.log[j + 1];
            && (!payload.Success? ==> next == Settled(reply, Failed(RefusalTells(stage, payload))))
            && (payload.Success? && stage == Model ==>
                  next.SettingsSent? && next.reply == reply && (next.stage == Effort || next.stage == ReadBack))
            && (payload.Success? && stage == Effort ==>
                  next.SettingsSent? && next.reply == reply && next.stage == ReadBack)
            && (payload.Success? && stage == Mode ==>
                  || (next.SettingsSent? && next.reply == reply && (next.stage == Model || next.stage == Effort))
                  || Begins(next, reply, scene))
  {
    hide Reachable, D.Watched, D.Spontaneous, D.Owed, F.Lawful, F.InFlight, F.Performed;
    EventAt(s, j);
    LawfulIsOk(s.log);
    forall l | i < l < j ensures !(s.log[l].Answered? && s.log[l].id == s.log[i].id) {
      RequestsOnce(s, l, j, s.log[i].id);
    }
    F.StillUnderway(s.log, i, j);
    var w := D.Watched(s.log[..j]);
    assert w.underway.Some? && F.InFlight(s.log[i], w.underway.value);
    AnswerGoesOn(w, s.log[i], s.log[j]);
    PerformsFirst(s, j, D.Owed(w, s.log[j]));
  }

  lemma PerformsFirst(s: State, j: nat, agenda: D.Agenda)
    requires F.Performed(s.log, j + 1, agenda) && agenda.Then?
    ensures j + 1 < |s.log| && s.log[j + 1] == agenda.first
  {
  }

  lemma AnswerGoesOn(w: D.Watch, sent: Obs, answer: Obs)
    requires answer.Answered? && w.underway.Some? && F.InFlight(sent, w.underway.value) && answer.id == sent.id
    ensures D.Owed(w, answer).Then?
    ensures var next, payload := D.Owed(w, answer).first, answer.payload;
            && (!payload.Success? ==> next == Settled(sent.reply, Failed(RefusalTells(sent.stage, payload))))
            && (payload.Success? && sent.stage == Model ==>
                  next.SettingsSent? && next.reply == sent.reply && (next.stage == Effort || next.stage == ReadBack))
            && (payload.Success? && sent.stage == Effort ==>
                  next.SettingsSent? && next.reply == sent.reply && next.stage == ReadBack)
            && (payload.Success? && sent.stage == Mode ==>
                  || (next.SettingsSent? && next.reply == sent.reply && (next.stage == Model || next.stage == Effort))
                  || Begins(next, sent.reply, answer.scene))
  {
  }

  // ---- What a caller's answer means ----------------------------------------------------------

  /** A caller may be told `Done` for these reasons only: its line was written; its request was answered
      with success, and it wanted nothing of the answer; its answer to an ask was written; the sub-agent
      it wanted stopped had ended. */
  predicate Earned(log: seq<Obs>, j: nat, reply: Token)
    requires j < |log|
  {
    || (j > 0 && (log[j - 1].UserLine? || log[j - 1].CompactLine?) && log[j - 1].reply == reply && log[j - 1].ok)
    || (j > 0 && log[j - 1].Answered? && log[j - 1].payload.Success? && HasAsked(log, j - 1, reply, false))
    || (j > 0 && log[j - 1].Received? && log[j - 1].command == StopTask(reply) && log[j - 1].scene.w.task.Ended?)
    || (j > 1 && GaveAnswer(log, j - 2, reply))
    || (j > 2 && GaveAnswer(log, j - 3, reply))
  }

  /** The caller's answer to an ask was received at `k` and written at once. */
  predicate GaveAnswer(log: seq<Obs>, k: nat, reply: Token)
    requires k + 1 < |log|
  {
    log[k].Received? && F.Gives(log[k].command, log[k + 1], reply) && log[k + 1].ok
  }

  /** The request answered at `k` was written for this caller. */
  predicate HasAsked(log: seq<Obs>, k: nat, reply: Token, value: bool)
    requires k < |log| && log[k].Answered?
  {
    exists i | 0 <= i < k :: log[i].ControlSent? && log[i].ok && log[i].id == log[k].id
                             && log[i].caller == Some(reply) && log[i].what.PlainControl? == value
  }

  /** Whence a settlement comes. */
  lemma SettledAt(s: State, j: nat) returns (k: nat)
    requires Reachable(s) && j < |s.log| && s.log[j].Settled?
    ensures k <= j && D.Watched(s.log).ok
    ensures var w := D.Watched(s.log[..k]);
            && w.ok && w.agenda.Nothing? && D.Spontaneous(w, s.log[k]) && F.Performed(s.log, k + 1, D.Owed(w, s.log[k]))
            && (k < j ==> F.Nth(D.Owed(w, s.log[k]), j - k - 1) == Some(s.log[j])
                          && F.Explained(w, s.log[k], j - k - 1))
  {
    hide Reachable, F.Lawful, D.Watched, D.Owed, F.Performed, F.Explained, D.Spontaneous;
    ReachableIsLawful(s);
    LawfulIsOk(s.log);
    k := F.Cause(s.log, j);
    F.DutyDone(s.log, k);
    F.OwedHolds(D.Watched(s.log[..k]), s.log[k], if k < j then j - k - 1 else 0);
  }

  /** Told by the supervisor itself, a caller is failed. */
  lemma AloneItFails(w: D.Watch, o: Obs)
    requires o.Settled? && D.Spontaneous(w, o)
    ensures o.outcome == Failed(ChildStopped) || o.outcome == Failed(ChildStopping)
  {
  }

  lemma CallerHasAsked(s: State, k: nat, w: D.Watch, reply: Token)
    requires k < |s.log| && s.log[k].Answered? && w == D.Watched(s.log[..k])
    requires s.log[k].id in w.callers && w.callers[s.log[k].id].reply == Some(reply)
    ensures HasAsked(s.log, k, reply, w.callers[s.log[k].id].value)
  {
    hide D.Watched;
    var i := F.CallerAsked(s.log[..k], s.log[k].id);
    assert s.log[..k][i] == s.log[i];
  }

  lemma DoneMeans(s: State, j: nat, reply: Token)
    requires Reachable(s) && j < |s.log| && s.log[j] == Settled(reply, Done)
    ensures Earned(s.log, j, reply)
  {
    hide Reachable, D.Watched, D.Spontaneous, F.Performed, F.Nth, F.Explained, D.Owed, Earned;
    var k := SettledAt(s, j);
    var w := D.Watched(s.log[..k]);
    if k == j {
      AloneItFails(w, s.log[j]);
    } else {
      hide HasAsked;
      if s.log[k].Received? {
        CommandEarns(s, j, k, w, D.Owed(w, s.log[k]), reply);
      } else {
        ResponseEarns(s, j, k, w, D.Owed(w, s.log[k]), reply);
      }
    }
  }

  lemma DoneOfCommand(w: D.Watch, o: Obs, n: nat, reply: Token)
    requires o.Received? && F.Explained(w, o, n) && F.Nth(D.Owed(w, o), n) == Some(Settled(reply, Done))
    ensures var agenda := D.Owed(w, o);
            || (n == 0 && o.command == StopTask(reply) && o.scene.w.task.Ended?)
            || (n > 0 && F.Nth(agenda, n - 1).Some? && F.LineWritten(F.Nth(agenda, n - 1).value, reply))
            || (1 <= n <= 2 && F.Nth(agenda, 0).Some? && F.Gives(o.command, F.Nth(agenda, 0).value, reply)
                && F.Nth(agenda, 0).value.ok)
  {
    hide F.Nth, D.Service, F.Opened, F.Gives, F.LineWritten;
  }

  lemma DoneOfAnswer(w: D.Watch, o: Obs, n: nat, reply: Token)
    requires !o.Received? && F.Explained(w, o, n) && F.Nth(D.Owed(w, o), n) == Some(Settled(reply, Done))
    ensures o.Answered?
    ensures var agenda := D.Owed(w, o);
            || (n > 0 && F.Nth(agenda, n - 1).Some? && F.LineWritten(F.Nth(agenda, n - 1).value, reply))
            || (n == 0 && o.payload.Success? && o.id in w.callers && w.callers[o.id] == D.Caller(Some(reply), false))
  {
    hide F.Nth, D.Handed, F.Opened, F.LineWritten;
  }

  lemma CommandEarns(s: State, j: nat, k: nat, w: D.Watch, agenda: D.Agenda, reply: Token)
    requires k < j < |s.log| && F.Performed(s.log, k + 1, agenda) && agenda == D.Owed(w, s.log[k])
    requires F.Nth(agenda, j - k - 1) == Some(Settled(reply, Done))
    requires F.Explained(w, s.log[k], j - k - 1) && s.log[k].Received?
    ensures Earned(s.log, j, reply)
  {
    DoneOfCommand(w, s.log[k], j - k - 1, reply);
    hide F.Performed, F.Nth, F.Explained, D.Owed, F.Gives, F.LineWritten, Earned, D.Watched;
    if j == k + 1 {
      EndedEarns(s.log, j, reply);
    } else if F.Nth(agenda, j - k - 2).Some? && F.LineWritten(F.Nth(agenda, j - k - 2).value, reply) {
      LineEarns(s, k, j, agenda, reply);
    } else {
      AnswerEarns(s, k, j, agenda, reply);
    }
  }

  lemma ResponseEarns(s: State, j: nat, k: nat, w: D.Watch, agenda: D.Agenda, reply: Token)
    requires k < j < |s.log| && F.Performed(s.log, k + 1, agenda) && agenda == D.Owed(w, s.log[k])
    requires w == D.Watched(s.log[..k]) && F.Nth(agenda, j - k - 1) == Some(Settled(reply, Done))
    requires F.Explained(w, s.log[k], j - k - 1) && !s.log[k].Received?
    ensures Earned(s.log, j, reply)
  {
    hide F.Performed, F.Nth, F.Explained, D.Owed, F.LineWritten, Earned, D.Watched;
    DoneOfAnswer(w, s.log[k], j - k - 1, reply);
    if j == k + 1 {
      hide F.Explained;
      ToldEarns(s, k, w, reply);
    } else {
      LineEarns(s, k, j, agenda, reply);
    }
  }

  lemma ToldEarns(s: State, k: nat, w: D.Watch, reply: Token)
    requires k + 1 < |s.log| && s.log[k].Answered? && s.log[k].payload.Success? && w == D.Watched(s.log[..k])
    requires s.log[k].id in w.callers && w.callers[s.log[k].id] == D.Caller(Some(reply), false)
    ensures Earned(s.log, k + 1, reply)
  {
    hide HasAsked, Earned, D.Watched;
    CallerHasAsked(s, k, w, reply);
    SuccessEarns(s.log, k + 1, reply);
  }

  lemma LineEarns(s: State, k: nat, j: nat, agenda: D.Agenda, reply: Token)
    requires k + 1 < j < |s.log| && F.Performed(s.log, k + 1, agenda)
    requires F.Nth(agenda, j - k - 2).Some? && F.LineWritten(F.Nth(agenda, j - k - 2).value, reply)
    ensures Earned(s.log, j, reply)
  {
    hide F.Performed, F.Nth, GaveAnswer, HasAsked;
    Due(s, k, agenda, j - k - 2);
  }

  lemma AnswerEarns(s: State, k: nat, j: nat, agenda: D.Agenda, reply: Token)
    requires k + 1 < j < |s.log| && j <= k + 3 && F.Performed(s.log, k + 1, agenda) && s.log[k].Received?
    requires F.Nth(agenda, 0).Some? && F.Gives(s.log[k].command, F.Nth(agenda, 0).value, reply)
    requires F.Nth(agenda, 0).value.ok
    ensures Earned(s.log, j, reply)
  {
    hide F.Performed, F.Nth, HasAsked, F.Gives;
    Due(s, k, agenda, 0);
    assert GaveAnswer(s.log, k, reply);
  }

  lemma EndedEarns(log: seq<Obs>, j: nat, reply: Token)
    requires 0 < j < |log| && log[j - 1].Received? && log[j - 1].command == StopTask(reply)
    requires log[j - 1].scene.w.task.Ended?
    ensures Earned(log, j, reply)
  {
    hide GaveAnswer, HasAsked;
  }

  lemma SuccessEarns(log: seq<Obs>, j: nat, reply: Token)
    requires 0 < j < |log| && log[j - 1].Answered? && log[j - 1].payload.Success? && HasAsked(log, j - 1, reply, false)
    ensures Earned(log, j, reply)
  {
    hide GaveAnswer, HasAsked;
  }

  /** A caller is told what the CLI said only if that is what the CLI answered to its own request. */
  lemma ValueMeans(s: State, j: nat, reply: Token, payload: Payload)
    requires Reachable(s) && j < |s.log| && s.log[j] == Settled(reply, Value(payload))
    ensures payload.Success? && j > 0 && s.log[j - 1].Answered? && s.log[j - 1].payload == payload
    ensures HasAsked(s.log, j - 1, reply, true)
  {
    hide Reachable, D.Watched, D.Spontaneous, F.Performed, F.Nth, F.Explained, D.Owed, HasAsked;
    var k := SettledAt(s, j);
    var w := D.Watched(s.log[..k]);
    if k == j {
      AloneItFails(w, s.log[j]);
    } else {
      ValueOfAnswer(w, s.log[k], j - k - 1, reply, payload);
      CallerHasAsked(s, k, w, reply);
    }
  }

  lemma ValueOfAnswer(w: D.Watch, o: Obs, n: nat, reply: Token, payload: Payload)
    requires F.Explained(w, o, n) && F.Nth(D.Owed(w, o), n) == Some(Settled(reply, Value(payload)))
    ensures o.Answered? && n == 0 && payload.Success? && o.payload == payload
    ensures o.id in w.callers && w.callers[o.id] == D.Caller(Some(reply), true)
  {
    hide F.Nth, D.Handed, D.Service, F.Opened, F.LineWritten, F.Gives;
  }

  /** A hand-off times out only at the deadline of its own request in flight, and its caller learns the
      stage and how long it was waited for. */
  lemma TimedOutMeans(s: State, j: nat, reply: Token, stage: SetupStage, waited: nat) returns (i: nat)
    requires Reachable(s) && j < |s.log| && s.log[j] == Settled(reply, Failed(TimedOut(stage, waited)))
    ensures i < j - 1 && s.log[j - 1].StageDue?
    ensures var sent := s.log[i];
            && sent.SettingsSent? && sent.ok && sent.reply == reply && sent.stage == stage
            && sent.deadline <= s.log[j - 1].at
            && waited == if sent.deadline >= sent.at then sent.deadline - sent.at else 0
  {
    hide Reachable, D.Watched, D.Spontaneous, F.Performed, F.Nth, F.Explained, D.Owed;
    var k := SettledAt(s, j);
    var w := D.Watched(s.log[..k]);
    if k == j {
      AloneItFails(w, s.log[j]);
      assert false;
    } else {
      TimeoutCause(w, s.log[k], j - k - 1, reply, stage, waited);
      i := F.UnderwaySent(s.log, k);
    }
  }

  lemma TimeoutCause(w: D.Watch, o: Obs, n: nat, reply: Token, stage: SetupStage, waited: nat)
    requires F.Explained(w, o, n) && F.Nth(D.Owed(w, o), n) == Some(Settled(reply, Failed(TimedOut(stage, waited))))
    requires D.Spontaneous(w, o)
    ensures o.StageDue? && n == 0 && w.underway.Some?
    ensures var u := w.underway.value;
            && u.start.reply == reply && u.stage == stage && u.deadline <= o.at
            && waited == if u.deadline >= u.sent then u.deadline - u.sent else 0
  {
    hide F.Nth, D.Handed, D.Service, F.Opened, F.LineWritten, F.Gives;
  }

  // ---- Requests and answers to asks ----------------------------------------------------------

  /** A control request other than the stop's interrupt goes out for the command just received, and its
      caller learns at once if it could not be written. */
  lemma RequestServesItsCommand(s: State, j: nat)
    requires Reachable(s) && j < |s.log| && s.log[j].ControlSent? && !s.log[j].what.StopInterrupt?
    ensures j > 0 && s.log[j - 1].Received? && F.Means(s.log[j - 1].command, s.log[j].what)
    ensures s.log[j].caller == Some(s.log[j - 1].command.reply)
    ensures !s.log[j].ok ==>
              j + 1 < |s.log| && s.log[j + 1] == Settled(s.log[j - 1].command.reply, Failed(WriteFailed))
  {
    hide Reachable, D.Watched, D.Spontaneous, F.Performed, F.Nth, F.Explained, D.Owed, F.Means;
    var k := ActAt(s, j);
    var w := D.Watched(s.log[..k]);
    RequestCause(w, s.log[k], j - k - 1);
    if !s.log[j].ok {
      Due(s, k, D.Owed(w, s.log[k]), 1);
    }
  }

  lemma RequestCause(w: D.Watch, o: Obs, n: nat)
    requires F.Explained(w, o, n) && F.Nth(D.Owed(w, o), n).Some?
    requires F.Nth(D.Owed(w, o), n).value.ControlSent? && !F.Nth(D.Owed(w, o), n).value.what.StopInterrupt?
    ensures n == 0 && o.Received?
    ensures var sent := F.Nth(D.Owed(w, o), n).value;
            && sent.caller == Some(o.command.reply) && F.Means(o.command, sent.what)
            && (!sent.ok ==> F.Tells(D.Owed(w, o), 0, o.command.reply, Failed(WriteFailed)))
  {
    hide F.Nth, D.Handed, D.Service, F.Opened, F.LineWritten, F.Gives, F.Means;
  }

  /** An answer to an ask is written for the command just received, as that command gives it; its caller
      learns at once whether it was written, a server request's card being cleared first. */
  lemma AnswerServesItsCommand(s: State, j: nat)
    requires Reachable(s) && j < |s.log| && s.log[j].AskAnswered?
    ensures j > 0 && s.log[j - 1].Received? && F.Gives(s.log[j - 1].command, s.log[j], s.log[j - 1].command.reply)
    ensures var o, reply := s.log[j], s.log[j - 1].command.reply;
            if o.kind.ServerRequest? && o.ok then
              j + 2 < |s.log| && s.log[j + 1] == AskCleared(o.ask) && s.log[j + 2] == Settled(reply, Done)
            else
              j + 1 < |s.log| && s.log[j + 1] == Settled(reply, if o.ok then Done else Failed(WriteFailed))
  {
    hide Reachable, D.Watched, D.Spontaneous, F.Performed, F.Nth, F.Explained, D.Owed, F.Gives;
    var k := ActAt(s, j);
    var w := D.Watched(s.log[..k]);
    AnswerCause(w, s.log[k], j - k - 1);
    Due(s, k, D.Owed(w, s.log[k]), 1);
    if s.log[j].kind.ServerRequest? && s.log[j].ok {
      Due(s, k, D.Owed(w, s.log[k]), 2);
    }
  }

  lemma AnswerCause(w: D.Watch, o: Obs, n: nat)
    requires F.Explained(w, o, n) && F.Nth(D.Owed(w, o), n).Some? && F.Nth(D.Owed(w, o), n).value.AskAnswered?
    ensures n == 0 && o.Received?
    ensures var a, answer := D.Owed(w, o), F.Nth(D.Owed(w, o), n).value;
            && F.Gives(o.command, answer, o.command.reply)
            && (if answer.kind.ServerRequest? && answer.ok then
                  F.Nth(a, 1) == Some(AskCleared(answer.ask)) && F.Tells(a, 1, o.command.reply, Done)
                else F.Tells(a, 0, o.command.reply, if answer.ok then Done else Failed(WriteFailed)))
  {
    hide F.Nth, D.Handed, D.Service, F.Opened, F.LineWritten, F.Gives;
  }

  /** What becomes of an answer to an ask that is not written. */
  predicate NotGiven(o: Obs, c: Command) {
    match c
    case RespondApproval(ask, _, _) => o == AskRefused(ask) || o == AskReinserted(Approval, ask)
    case RespondServerRequest(ask, _, _) => o == AskRefused(ask) || o == AskReinserted(ServerRequest, ask)
    case _ => false
  }

  function WhyNotGiven(o: Obs, c: Command, scene: Scene): Outcome {
    if o.AskRefused? then Failed(Withdrawn)
    else if scene.w.gaveUp then Dropped
    else if c.RespondApproval? then Failed(UnsupportedDecision)
    else Failed(UnfitAnswer)
  }

  /** An answer that is refused, or whose ask goes back to the pending ones, was just received; its caller
      learns why at once, a refused server request's card being cleared first. */
  lemma UngivenAnswerIsExplained(s: State, j: nat)
    requires Reachable(s) && j < |s.log| && (s.log[j].AskRefused? || s.log[j].AskReinserted?)
    ensures j > 0 && s.log[j - 1].Received? && NotGiven(s.log[j], s.log[j - 1].command)
    ensures var c := s.log[j - 1].command;
            var told := Settled(c.reply, WhyNotGiven(s.log[j], c, s.log[j - 1].scene));
            if s.log[j].AskRefused? && c.RespondServerRequest? then
              j + 2 < |s.log| && s.log[j + 1] == AskCleared(s.log[j].ask) && s.log[j + 2] == told
            else j + 1 < |s.log| && s.log[j + 1] == told
  {
    hide Reachable, D.Watched, D.Spontaneous, F.Performed, F.Nth, F.Explained, D.Owed, NotGiven, WhyNotGiven;
    var k := ActAt(s, j);
    var w := D.Watched(s.log[..k]);
    UngivenCause(w, s.log[k], j - k - 1);
    Due(s, k, D.Owed(w, s.log[k]), 1);
    if s.log[j].AskRefused? && s.log[k].command.RespondServerRequest? {
      Due(s, k, D.Owed(w, s.log[k]), 2);
    }
  }

  lemma UngivenCause(w: D.Watch, o: Obs, n: nat)
    requires F.Explained(w, o, n) && F.Nth(D.Owed(w, o), n).Some?
    requires F.Nth(D.Owed(w, o), n).value.AskRefused? || F.Nth(D.Owed(w, o), n).value.AskReinserted?
    ensures n == 0 && o.Received?
    ensures var a, act, c := D.Owed(w, o), F.Nth(D.Owed(w, o), n).value, o.command;
            && NotGiven(act, c)
            && (if act.AskRefused? && c.RespondServerRequest? then
                  F.Nth(a, 1) == Some(AskCleared(act.ask)) && F.Tells(a, 1, c.reply, WhyNotGiven(act, c, o.scene))
                else F.Tells(a, 0, c.reply, WhyNotGiven(act, c, o.scene)))
  {
    hide F.Nth, D.Handed, D.Service, F.Opened, F.LineWritten, F.Gives;
  }

  /** A card is cleared only right after the server request it shows was withdrawn, its answer written or
      its answer refused. */
  lemma ClearedMeans(s: State, j: nat, ask: AskId)
    requires Reachable(s) && j < |s.log| && s.log[j] == AskCleared(ask)
    ensures j > 0
    ensures || s.log[j - 1] == AskWithdrawn(ask, Some(ServerRequest))
            || s.log[j - 1] == AskRefused(ask)
            || s.log[j - 1] == AskAnswered(ServerRequest, ask, None, true)
  {
    hide Reachable, D.Watched, D.Spontaneous, F.Performed, F.Nth, F.Explained, D.Owed;
    var k := ActAt(s, j);
    var w := D.Watched(s.log[..k]);
    ClearedCause(w, s.log[k], j - k - 1, ask);
    if j > k + 1 {
      Due(s, k, D.Owed(w, s.log[k]), 0);
    }
  }

  lemma ClearedCause(w: D.Watch, o: Obs, n: nat, ask: AskId)
    requires F.Explained(w, o, n) && F.Nth(D.Owed(w, o), n) == Some(AskCleared(ask))
    ensures || (n == 0 && o == AskWithdrawn(ask, Some(ServerRequest)))
            || (n == 1 && F.Nth(D.Owed(w, o), 0) == Some(AskRefused(ask)))
            || (n == 1 && F.Nth(D.Owed(w, o), 0) == Some(AskAnswered(ServerRequest, ask, None, true)))
  {
    hide F.Nth, D.Handed, D.Service, F.Opened, F.LineWritten, F.Gives;
  }

  /** A server request withdrawn while it is pending has its card cleared at once, unless the child was
      reaped; and so has one whose answer comes after the withdrawal. */
  lemma WithdrawalClears(s: State, j: nat, ask: AskId)
    requires Reachable(s) && j < |s.log| && s.log[j] == AskWithdrawn(ask, Some(ServerRequest))
    ensures j + 1 < |s.log|
    ensures || s.log[j + 1] == AskCleared(ask)
            || (s.log[j + 1] == OutputDropped && exists i | 0 <= i < j :: s.log[i].Reaped?)
  {
    hide Reachable, D.Watched, D.Spontaneous, F.Performed;
    EventAt(s, j);
    var w := D.Watched(s.log[..j]);
    PerformsFirst(s, j, D.Owed(w, s.log[j]));
    if w.reaped {
      var i := F.ReapedBefore(s.log, j);
    }
  }

  // ---- The stop sequence ---------------------------------------------------------------------

  /** Where the first stage of the stop shows in the log. */
  function FirstAct(j: nat, joined: Option<Token>): nat {
    if joined.Some? then j + 2 else j + 1
  }

  /** A stop with a turn live tries to interrupt it before it closes stdin, and closes stdin only if that
      cannot be written; with no turn live it closes stdin at once. */
  lemma StopInterruptsTheLiveTurn(s: State, j: nat)
    requires Reachable(s) && j < |s.log| && s.log[j].Stopping?
    ensures var scene, n := s.log[j].scene, FirstAct(j, s.log[j].joined);
            && (s.log[j].joined.Some? ==> j + 1 < |s.log| && s.log[j + 1] == StopJoined(s.log[j].joined.value))
            && n < |s.log|
            && (scene.active.None? ==> s.log[n] == StdinClosed(scene.at))
            && (scene.active.Some? ==>
                  && s.log[n].ControlSent? && s.log[n].what == StopInterrupt && s.log[n].caller == None
                  && s.log[n].at == scene.at + scene.w.writing && s.log[n].ok == scene.w.writeOk
                  && (!s.log[n].ok ==> n + 1 < |s.log| && s.log[n + 1] == StdinClosed(s.log[n].at)))
  {
    hide Reachable, D.Watched, D.Spontaneous;
    EventAt(s, j);
    HaltPerformed(s, j, D.Watched(s.log[..j]));
  }

  lemma HaltPerformed(s: State, j: nat, w: D.Watch)
    requires j < |s.log| && s.log[j].Stopping?
    requires F.Performed(s.log, j + 1, D.HaltDue(w, s.log[j].joined, s.log[j].scene))
    ensures var scene, n := s.log[j].scene, FirstAct(j, s.log[j].joined);
            && (s.log[j].joined.Some? ==> j + 1 < |s.log| && s.log[j + 1] == StopJoined(s.log[j].joined.value))
            && n < |s.log|
            && (scene.active.None? ==> s.log[n] == StdinClosed(scene.at))
            && (scene.active.Some? ==>
                  && s.log[n] == ControlSent(w.nextId, StopInterrupt, None, scene.at + scene.w.writing, scene.w.writeOk)
                  && (!scene.w.writeOk ==> n + 1 < |s.log| && s.log[n + 1] == StdinClosed(s.log[n].at)))
  {
    var agenda := D.HaltDue(w, s.log[j].joined, s.log[j].scene);
    F.PerformedThen(s.log, j + 1, agenda);
    F.PerformedThen(s.log, j + 2, F.Tail(agenda));
    F.PerformedThen(s.log, j + 3, F.Tail(F.Tail(agenda)));
  }

  /** Once the interrupt of a stop is written, stdin closes only after a line that leaves no turn live, or
      at the stage's deadline, five seconds after the stop began. */
  lemma StdinWaitsForTheTurn(s: State, i: nat, j: nat) returns (began: nat)
    requires Reachable(s) && i < j < |s.log| && s.log[j].StdinClosed?
    requires s.log[i].ControlSent? && s.log[i].what == StopInterrupt && s.log[i].ok
    ensures began < j && s.log[began].Stopping?
    ensures || s.log[j - 1] == LineMapped(None, s.log[j].at)
            || (s.log[j - 1] == StageDue(s.log[j].at)
                && s.log[began].scene.at + STOP_INTERRUPT_GRACE <= s.log[j].at)
  {
    hide Reachable, D.Watched, D.Spontaneous, F.Performed, F.Nth, F.Explained, D.Owed, F.HaltFrom;
    var k := ActAt(s, j);
    var w := D.Watched(s.log[..k]);
    if s.log[k].Stopping? {
      InterruptIsNotClosed(s, i, j, k);
      NoInterruptBefore(s, i, k);
      assert false;
    } else {
      CloseCause(w, s.log[k], j - k - 1);
      began := F.HaltBegan(s.log, k);
      HaltSince(w, s.log[k], s.log[began]);
    }
  }

  lemma CloseCause(w: D.Watch, o: Obs, n: nat)
    requires F.Explained(w, o, n) && F.Nth(D.Owed(w, o), n).Some? && F.Nth(D.Owed(w, o), n).value.StdinClosed?
    requires !o.Stopping? && D.Spontaneous(w, o)
    ensures n == 0 && w.halt.Interrupted?
    ensures var at := F.Nth(D.Owed(w, o), n).value.at;
            o == LineMapped(None, at) || (o == StageDue(at) && w.halt.until <= at)
  {
    hide F.Nth, D.Handed, D.Service, F.Opened, F.LineWritten, F.Gives;
  }

  lemma HaltSince(w: D.Watch, o: Obs, began: Obs)
    requires w.halt.Interrupted? && F.HaltFrom(began, w.halt)
    ensures began.Stopping? && w.halt.until == began.scene.at + STOP_INTERRUPT_GRACE
  {
  }

  /** The stop that closes stdin itself wrote no interrupt. */
  lemma InterruptIsNotClosed(s: State, i: nat, j: nat, k: nat)
    requires Reachable(s) && i < j < |s.log| && k < j && s.log[k].Stopping?
    requires s.log[i].ControlSent? && s.log[i].what == StopInterrupt && s.log[i].ok
    requires var w := D.Watched(s.log[..k]);
             F.Performed(s.log, k + 1, D.Owed(w, s.log[k]))
             && F.Nth(D.Owed(w, s.log[k]), j - k - 1) == Some(s.log[j])
    requires s.log[j].StdinClosed?
    ensures i < k
  {
    hide Reachable, D.Watched;
    var w := D.Watched(s.log[..k]);
    var agenda := D.HaltDue(w, s.log[k].joined, s.log[k].scene);
    HaltPerformed(s, k, w);
    F.Unroll(agenda, j - k - 1);
    F.NothingNth(if j - k - 1 >= 5 then j - k - 1 - 5 else 0);
  }

  lemma NoInterruptBefore(s: State, i: nat, k: nat)
    requires Reachable(s) && i < k < |s.log| && s.log[k].Stopping?
    ensures !(s.log[i].ControlSent? && s.log[i].what == StopInterrupt)
  {
    hide Reachable, Summary;
    ReachablePair(s, i, k);
  }

  /** While an interrupted turn is awaited, the first line that leaves no turn live, or the deadline,
      closes stdin at once. */
  lemma TurnEndClosesStdin(s: State, i: nat, j: nat)
    requires Reachable(s) && i < j < |s.log| && s.log[i].ControlSent? && s.log[i].what == StopInterrupt && s.log[i].ok
    requires (s.log[j].LineMapped? && s.log[j].active.None?) || s.log[j].StageDue?
    requires forall l | i < l < j :: !s.log[l].StdinClosed?
    ensures j + 1 < |s.log| && s.log[j + 1] == StdinClosed(s.log[j].at)
  {
    hide Reachable, D.Watched, D.Spontaneous, F.Performed, F.HaltFrom;
    EventAt(s, j);
    var w := D.Watched(s.log[..j]);
    InterruptedSince(s, i, j);
    PerformsFirst(s, j, D.Owed(w, s.log[j]));
  }

  lemma InterruptedSince(s: State, i: nat, j: nat)
    requires Reachable(s) && i < j < |s.log| && s.log[i].ControlSent? && s.log[i].what == StopInterrupt
    requires forall l | i < l < j :: !s.log[l].StdinClosed?
    ensures D.Watched(s.log[..j]).halt.Interrupted?
  {
    hide Reachable, D.Watched, F.HaltFrom, Summary;
    ReachableAt(s, i);
    var began := TraceFacts.StoppingBefore(s.log[..i]);
    StoppedSince(s, began, j);
    if D.Watched(s.log[..j]).halt.Shut? {
      var closed := F.HaltBegan(s.log, j);
      ShutIsClosed(D.Watched(s.log[..j]), s.log[closed]);
      StdinClosesOnce(s, closed, i);
      assert false;
    }
  }

  lemma ShutIsClosed(w: D.Watch, o: Obs)
    requires w.halt.Shut? && F.HaltFrom(o, w.halt)
    ensures o.StdinClosed? && w.halt.until == o.at + STOP_EXIT_GRACE
  {
  }

  lemma StoppedSince(s: State, i: nat, j: nat)
    requires Reachable(s) && i < j <= |s.log| && s.log[i].Stopping?
    ensures !D.Watched(s.log[..j]).halt.Ongoing?
  {
    hide Reachable, D.Watched, D.Spontaneous, F.Performed, F.HaltFrom, D.Follow;
    EventAt(s, i);
    F.Unfolds(s.log, i);
    F.OnwardOne(D.Watched(s.log[..i]), s.log[i]);
    F.OnwardAll(s.log, i + 1, j);
  }

  /** A grace kill comes five seconds after stdin was closed, or later. */
  lemma KillWaitsForTheExit(s: State, j: nat) returns (i: nat)
    requires Reachable(s) && j < |s.log| && s.log[j].Killed? && s.log[j].grace
    ensures i < j && s.log[i].StdinClosed? && s.log[i].at + STOP_EXIT_GRACE <= s.log[j].at
  {
    hide Reachable, D.Watched, D.Spontaneous, F.Performed, F.Nth, F.Explained, D.Owed, F.HaltFrom;
    var k := ActAt(s, j);
    var w := D.Watched(s.log[..k]);
    KillCause(w, s.log[k], j - k - 1);
    i := F.HaltBegan(s.log, k);
    ShutIsClosed(w, s.log[i]);
  }

  lemma KillCause(w: D.Watch, o: Obs, n: nat)
    requires F.Explained(w, o, n) && F.Nth(D.Owed(w, o), n).Some? && F.Nth(D.Owed(w, o), n).value.Killed?
    requires D.Spontaneous(w, o)
    ensures w.halt.Shut? && w.halt.until <= F.Nth(D.Owed(w, o), n).value.at
  {
    hide F.Nth, D.Handed, D.Service, F.Opened, F.LineWritten, F.Gives;
  }

  // ---- Commands ------------------------------------------------------------------------------

  /** A command that comes while the child is stopping is refused, whatever it asks. */
  lemma RefusedWhileStopping(s: State, i: nat, j: nat)
    requires Reachable(s) && i < j < |s.log| && s.log[i].Stopping? && s.log[j].Received?
    ensures j + 1 < |s.log| && s.log[j + 1] == Settled(s.log[j].command.reply, Failed(ChildStopped))
  {
    hide Reachable, D.Watched, D.Spontaneous, F.Performed;
    EventAt(s, j);
    StoppedSince(s, i, j);
    PerformsFirst(s, j, D.Owed(D.Watched(s.log[..j]), s.log[j]));
  }

  /** The command's caller is told this next, and nothing else is done for it. */
  predicate Answers(c: Command, next: Obs, outcome: Outcome) {
    next == Settled(c.reply, outcome)
  }

  /** What a serving supervisor does first for a command. */
  predicate ServedFirst(c: Command, scene: Scene, next: Obs) {
    match c
    case StartTurn(_, _, _, _, _, reply) =>
      if scene.w.gaveUp then Answers(c, next, Dropped)
      else if scene.active.Some? || scene.handOffs > 0 then Answers(c, next, Failed(ThreadBusy))
      else next == HandOffBegan(reply, scene.at)
    case Compact(turn, _, _) =>
      if scene.w.gaveUp then Answers(c, next, Dropped)
      else if scene.active.Some? || scene.handOffs > 0 then Answers(c, next, Failed(ThreadBusy))
      else next == TurnStarted(turn)
    case Interrupt(_) => next.ControlSent?
    case Control(_) => next.ControlSent?
    case StopTask(_) =>
      (match scene.w.task
       case Running => next.ControlSent?
       case NotYetStarted => Answers(c, next, Failed(NotStarted))
       case Ended => Answers(c, next, Done)
       case NoRoute => Answers(c, next, Failed(NotARoute)))
    case StopBackgroundCommand(_) =>
      if scene.w.command then next.ControlSent? else Answers(c, next, Failed(NoBackgroundCommand))
    case RespondApproval(ask, decision, _) =>
      || next == AskRefused(ask)
      || (if scene.w.gaveUp || decision == ExecPolicyAmendment then next == AskReinserted(Approval, ask)
          else next.AskAnswered?)
    case RespondServerRequest(ask, fits, _) =>
      || next == AskRefused(ask)
      || (if scene.w.gaveUp || !fits then next == AskReinserted(ServerRequest, ask) else next.AskAnswered?)
    case Stop(_) => false
  }

  /** A command that comes before any stop is served at once, by what it asks and what the supervisor
      finds. */
  lemma ServedBeforeAnyStop(s: State, j: nat)
    requires Reachable(s) && j < |s.log| && s.log[j].Received?
    requires forall i | 0 <= i < j :: !s.log[i].Stopping?
    ensures j + 1 < |s.log| && ServedFirst(s.log[j].command, s.log[j].scene, s.log[j + 1])
  {
    hide Reachable, D.Watched, F.Performed;
    EventAt(s, j);
    StillOngoing(s, j);
    var w := D.Watched(s.log[..j]);
    ServiceFirst(w, s.log[j].command, s.log[j].scene);
    PerformsFirst(s, j, D.Owed(w, s.log[j]));
  }

  lemma ServiceFirst(w: D.Watch, c: Command, scene: Scene)
    requires !c.Stop?
    ensures D.Service(w, c, scene).Then? && ServedFirst(c, scene, D.Service(w, c, scene).first)
  {
  }

  lemma StillOngoing(s: State, j: nat)
    requires Reachable(s) && j < |s.log|
    requires forall i | 0 <= i < j :: !s.log[i].Stopping?
    ensures D.Watched(s.log[..j]).halt.Ongoing?
  {
    hide Reachable, D.Watched, F.HaltFrom, Summary;
    if !D.Watched(s.log[..j]).halt.Ongoing? {
      var i := F.HaltBegan(s.log, j);
      HaltIsSeen(D.Watched(s.log[..j]).halt, s.log[i]);
      ReachableAt(s, i);
      var began := TraceFacts.StoppingBefore(s.log[..i]);
      assert false;
    }
  }

  lemma HaltIsSeen(halt: D.Halt, o: Obs)
    requires F.HaltFrom(o, halt)
    ensures o.Stopping? || o.StdinClosed?
  {
  }
}
