/** From the watch back to the observations: what an event obliged to follows it, and what was done
    follows the event that obliged to it. */
module DutyFacts {
  import opened Protocol
  import opened Trace
  import opened Duties

  // ---- Along the log -------------------------------------------------------------------------

  lemma Unfolds(log: seq<Obs>, i: nat)
    requires i < |log|
    ensures Watched(log[..i + 1]) == Follow(Watched(log[..i]), log[i])
  {
    assert log[..i + 1][..i] == log[..i] && log[..i + 1][i] == log[i];
  }

  lemma FollowedOk(w: Watch, o: Obs)
    ensures Follow(w, o).ok ==> w.ok && (if w.agenda.Then? then o == w.agenda.first else Spontaneous(w, o))
    ensures Follow(w, o).agenda == (if w.agenda.Then? then w.agenda.rest else Owed(w, o))
  {
    hide Spontaneous, Owed;
  }

  lemma {:induction false} OkBefore(log: seq<Obs>, i: nat)
    requires Watched(log).ok && i <= |log|
    ensures Watched(log[..i]).ok
    decreases |log| - i
  {
    hide Watched, Follow;
    if i == |log| {
      assert log[..i] == log;
    } else {
      OkBefore(log, i + 1);
      Unfolds(log, i);
      FollowedOk(Watched(log[..i]), log[i]);
    }
  }

  /** The observations from `i` on begin with `agenda`. */
  predicate Performed(log: seq<Obs>, i: nat, agenda: Agenda)
    decreases agenda
  {
    agenda.Then? ==> i < |log| && log[i] == agenda.first && Performed(log, i + 1, agenda.rest)
  }

  function Nth(agenda: Agenda, n: nat): Option<Obs>
    decreases agenda
  {
    if agenda.Nothing? then None else if n == 0 then Some(agenda.first) else Nth(agenda.rest, n - 1)
  }

  /** Every obligation was met and nothing is due. */
  predicate Lawful(log: seq<Obs>) {
    Watched(log).ok && Watched(log).agenda.Nothing?
  }

  lemma {:induction false} AgendaDone(log: seq<Obs>, i: nat)
    requires Lawful(log) && i <= |log|
    ensures Performed(log, i, Watched(log[..i]).agenda)
    decreases |log| - i
  {
    OkBefore(log, i);
    hide Watched, Follow;
    if i == |log| {
      assert log[..i] == log;
    } else if Watched(log[..i]).agenda.Then? {
      OkBefore(log, i + 1);
      Unfolds(log, i);
      FollowedOk(Watched(log[..i]), log[i]);
      AgendaDone(log, i + 1);
    }
  }

  /** What an event that happened by itself obliged to follows it at once. */
  lemma DutyDone(log: seq<Obs>, k: nat)
    requires Lawful(log) && k < |log| && Watched(log[..k]).agenda.Nothing?
    ensures Watched(log[..k]).ok && Spontaneous(Watched(log[..k]), log[k])
    ensures Performed(log, k + 1, Owed(Watched(log[..k]), log[k]))
  {
    hide Watched, Follow, Owed, Spontaneous, Performed;
    OkBefore(log, k + 1);
    Unfolds(log, k);
    FollowedOk(Watched(log[..k]), log[k]);
    AgendaDone(log, k + 1);
  }

  /** Each observation happened by itself, or some event before it obliged to it. */
  lemma Cause(log: seq<Obs>, j: nat) returns (k: nat)
    requires Watched(log).ok && j < |log|
    ensures k <= j && Watched(log[..k]).agenda.Nothing?
    ensures k < j ==> Nth(Owed(Watched(log[..k]), log[k]), j - k - 1) == Some(log[j])
  {
    hide Watched, Owed;
    k := Origin(log, j);
    if k < j {
      OkBefore(log, j + 1);
      Unfolds(log, j);
      FollowedOk(Watched(log[..j]), log[j]);
      NthIs(Owed(Watched(log[..k]), log[k]), j - k - 1, Watched(log[..j]).agenda);
    }
  }

  /** What is left of an agenda after `n` steps. */
  function Rest(agenda: Agenda, n: nat): Agenda
    decreases n
  {
    if n == 0 || agenda.Nothing? then agenda else Rest(agenda.rest, n - 1)
  }

  lemma {:induction false} NthIs(agenda: Agenda, n: nat, rest: Agenda)
    requires Rest(agenda, n) == rest && rest.Then?
    ensures Nth(agenda, n) == Some(rest.first)
    decreases n
  {
    if n > 0 {
      NthIs(agenda.rest, n - 1, rest);
    }
  }

  lemma {:induction false} RestNext(agenda: Agenda, n: nat)
    requires Rest(agenda, n).Then?
    ensures Rest(agenda, n + 1) == Rest(agenda, n).rest
    decreases n
  {
    if n > 0 {
      RestNext(agenda.rest, n - 1);
    }
  }

  /** The event an agenda comes from. */
  lemma {:induction false} Origin(log: seq<Obs>, j: nat) returns (k: nat)
    requires Watched(log).ok && j <= |log|
    ensures k <= j && Watched(log[..k]).agenda.Nothing?
    ensures if Watched(log[..j]).agenda.Nothing? then k == j
            else k < j && Rest(Owed(Watched(log[..k]), log[k]), j - k - 1) == Watched(log[..j]).agenda
    decreases j
  {
    hide Owed, Follow;
    if Watched(log[..j]).agenda.Nothing? {
      k := j;
    } else {
      assert j > 0;
      hide Watched;
      Unfolds(log, j - 1);
      FollowedOk(Watched(log[..j - 1]), log[j - 1]);
      k := Origin(log, j - 1);
      if k < j - 1 {
        RestNext(Owed(Watched(log[..k]), log[k]), j - k - 2);
      }
    }
  }

  // ---- What agendas hold ---------------------------------------------------------------------

  lemma {:induction false} NthDone(log: seq<Obs>, i: nat, agenda: Agenda, n: nat)
    requires Performed(log, i, agenda) && Nth(agenda, n).Some?
    ensures i + n < |log| && log[i + n] == Nth(agenda, n).value
    decreases agenda
  {
    if n > 0 {
      NthDone(log, i + 1, agenda.rest, n - 1);
    }
  }

  function Head(agenda: Agenda): Option<Obs> {
    if agenda.Then? then Some(agenda.first) else None
  }

  function Tail(agenda: Agenda): Agenda {
    if agenda.Then? then agenda.rest else agenda
  }

  lemma NthTail(agenda: Agenda, n: nat)
    ensures Nth(agenda, 0) == Head(agenda)
    ensures n > 0 ==> Nth(agenda, n) == Nth(Tail(agenda), n - 1)
  {
  }

  lemma PerformedThen(log: seq<Obs>, i: nat, agenda: Agenda)
    requires Performed(log, i, agenda)
    ensures agenda.Then? ==> i < |log| && log[i] == agenda.first
    ensures Performed(log, i + 1, Tail(agenda))
  {
  }

  /** An agenda's places one by one. */
  lemma Unroll(a: Agenda, n: nat)
    ensures n == 0 ==> Nth(a, n) == Head(a)
    ensures n == 1 ==> Nth(a, n) == Head(Tail(a))
    ensures n == 2 ==> Nth(a, n) == Head(Tail(Tail(a)))
    ensures n == 3 ==> Nth(a, n) == Head(Tail(Tail(Tail(a))))
    ensures n == 4 ==> Nth(a, n) == Head(Tail(Tail(Tail(Tail(a)))))
    ensures n >= 5 ==> Nth(a, n) == Nth(Tail(Tail(Tail(Tail(Tail(a))))), n - 5)
  {
    hide Nth, Head, Tail;
    var b, c, d, e := Tail(a), Tail(Tail(a)), Tail(Tail(Tail(a))), Tail(Tail(Tail(Tail(a))));
    NthTail(a, n);
    if n > 0 { NthTail(b, n - 1); }
    if n > 1 { NthTail(c, n - 2); }
    if n > 2 { NthTail(d, n - 3); }
    if n > 3 { NthTail(e, n - 4); }
    if n > 4 { NthTail(Tail(e), n - 5); }
  }

  /** A turn's opening comes to its line and what its caller is told of it. */
  lemma OpeningNth(turn: TurnId, notice: Option<string>, line: Obs, told: Obs, n: nat)
    ensures var a := Opening(turn, notice, Then(line, Last(told)));
            var m := if notice.Some? then 2 else 1;
            && (n == 0 ==> Nth(a, n) == Some(TurnStarted(turn)))
            && (0 < n < m ==> Nth(a, n) == Some(Noticed(turn, notice.value)))
            && (n == m ==> Nth(a, n) == Some(line))
            && (n == m + 1 ==> Nth(a, n) == Some(told))
            && (n > m + 1 ==> Nth(a, n).None?)
  {
    Unroll(Opening(turn, notice, Then(line, Last(told))), n);
  }

  /** What may be due: what the supervisor does, and nothing that happens to it. */
  predicate Act(o: Obs) {
    || o.Settled? || o.ControlSent? || o.SettingsSent? || o.HandOffBegan? || o.TurnStarted? || o.Noticed?
    || o.UserLine? || o.CompactLine? || o.AskAnswered? || o.AskRefused? || o.AskReinserted? || o.AskCleared?
    || o.OutputDropped? || o.EntrySynced? || o.StopJoined? || o.StdinClosed? || (o.Killed? && o.grace)
  }

  predicate Acts(agenda: Agenda) {
    agenda.Then? ==> Act(agenda.first) && Acts(agenda.rest)
  }

  lemma {:induction false} NthActs(agenda: Agenda, n: nat)
    requires Acts(agenda) && Nth(agenda, n).Some?
    ensures Act(Nth(agenda, n).value)
    decreases agenda
  {
    if n > 0 {
      NthActs(agenda.rest, n - 1);
    }
  }

  lemma ActsThen(o: Obs, rest: Agenda)
    requires Act(o) && Acts(rest)
    ensures Acts(Then(o, rest))
  {
  }

  lemma ActsLast(o: Obs)
    requires Act(o)
    ensures Acts(Last(o))
  {
    ActsThen(o, Nothing);
  }

  lemma OpeningActs(turn: TurnId, notice: Option<string>, line: Obs, told: Obs)
    requires Act(line) && Act(told)
    ensures Acts(Opening(turn, notice, Then(line, Last(told))))
  {
    ActsLast(told);
    ActsThen(line, Last(told));
    if notice.Some? {
      ActsThen(Noticed(turn, notice.value), Then(line, Last(told)));
    }
  }

  lemma GoActs(start: Start, held: Settings, scene: Scene)
    ensures Acts(Go(start, held, scene))
  {
    var ok := scene.w.writeOk;
    OpeningActs(start.turn, start.notice,
                UserLine(start.reply, start.turn, start.line, start.settings, held.mode, held.model, held.effort,
                         None, 0, ok),
                Settled(start.reply, if ok then Done else Failed(WriteFailed)));
  }

  lemma SendActs(nextId: RequestId, u: Underway, stage: SetupStage, scene: Scene)
    ensures Acts(Send(nextId, u, stage, scene))
  {
  }

  lemma RequestActs(nextId: RequestId, what: ControlKind, reply: Token, scene: Scene)
    ensures Acts(Request(nextId, what, reply, scene))
  {
  }

  lemma ServiceActs(w: Watch, c: Command, scene: Scene)
    ensures Acts(Service(w, c, scene))
  {
    hide Send, Request, Opening;
    match c
    case StartTurn(line, turn, model, settings, notice, reply) =>
      var began := Began(Start(line, turn, model, settings, notice, reply), scene.at);
      SendActs(w.nextId, began, Mode, scene);
      ActsThen(HandOffBegan(reply, scene.at), Send(w.nextId, began, Mode, scene));
    case Interrupt(reply) => RequestActs(w.nextId, UserInterrupt, reply, scene);
    case Control(reply) => RequestActs(w.nextId, PlainControl, reply, scene);
    case StopTask(reply) => RequestActs(w.nextId, TaskStop, reply, scene);
    case StopBackgroundCommand(reply) => RequestActs(w.nextId, CommandStop, reply, scene);
    case Compact(turn, notice, reply) =>
      OpeningActs(turn, notice, CompactLine(reply, turn, None, 0, scene.w.writeOk),
                  Settled(reply, if scene.w.writeOk then Done else Failed(WriteFailed)));
    case RespondServerRequest(ask, _, reply) =>
      TellActs(AskReinserted(ServerRequest, ask), reply, Dropped);
      TellActs(AskReinserted(ServerRequest, ask), reply, Failed(UnfitAnswer));
      TellActs(AskAnswered(ServerRequest, ask, None, false), reply, Failed(WriteFailed));
      TellActs(AskCleared(ask), reply, Failed(Withdrawn));
      TellActs(AskCleared(ask), reply, Done);
    case RespondApproval(ask, decision, reply) =>
      TellActs(AskRefused(ask), reply, Failed(Withdrawn));
      TellActs(AskReinserted(Approval, ask), reply, Dropped);
      TellActs(AskReinserted(Approval, ask), reply, Failed(UnsupportedDecision));
      TellActs(AskAnswered(Approval, ask, Some(decision), true), reply, Done);
      TellActs(AskAnswered(Approval, ask, Some(decision), false), reply, Failed(WriteFailed));
    case Stop(_) =>
  }

  lemma TellActs(o: Obs, reply: Token, outcome: Outcome)
    requires Act(o)
    ensures Acts(Then(o, Tell(reply, outcome)))
  {
    ActsLast(Settled(reply, outcome));
  }

  lemma ReadBackActs(w: Watch, u: Underway, payload: Payload, scene: Scene)
    requires payload.Success? && u.stage.ReadBack?
    ensures Acts(ReadBackDue(w, u, payload, scene))
  {
    hide Go, Holds, Applied, Wanted, Acts;
    var held, wanted := Holds(w.held, u, payload), Wanted(w.held, u);
    ActsLast(Settled(u.start.reply, Failed(WrongModel(payload.appliedModel, wanted))));
    GoActs(u.start, held, scene);
    ActsThen(EntrySynced(held.model), Go(u.start, held, scene));
    if u.start.settings.effort.Some? {
      var untaken := Failed(EffortNotTaken(u.start.settings.effort.value, wanted));
      ActsLast(Settled(u.start.reply, untaken));
      ActsThen(EntrySynced(held.model), Tell(u.start.reply, untaken));
    }
  }

  lemma HandedActs(w: Watch, u: Underway, payload: Payload, scene: Scene)
    ensures Acts(Handed(w, u, payload, scene))
  {
    hide Go, Send, Holds, Chosen, ReadBackDue, Acts, StageFailure;
    if !payload.Success? {
      ActsLast(Settled(u.start.reply, Failed(StageFailure(u.stage, payload))));
    } else {
      match u.stage
      case Mode =>
        SendActs(w.nextId, Chosen(w.held, u), Model, scene);
        SendActs(w.nextId, Chosen(w.held, u), Effort, scene);
        GoActs(u.start, Holds(w.held, u, payload), scene);
      case Model => SendActs(w.nextId, u, if u.tunes then Effort else ReadBack, scene);
      case Effort => SendActs(w.nextId, u, ReadBack, scene);
      case ReadBack => ReadBackActs(w, u, payload, scene);
    }
  }

  lemma OwedActs(w: Watch, o: Obs)
    ensures Acts(Owed(w, o))
  {
    NoActs();
    hide Service, AnswerDue, HaltDue, DeadlineDue, Acts;
    match o
    case Received(c, scene) =>
      ServiceActs(w, c, scene);
      ActsLast(Settled(c.reply, Failed(ChildStopped)));
    case Answered(id, payload, scene) => AnswerActs(w, id, payload, scene);
    case Stopping(_, joined, scene) => HaltActs(w, joined, scene);
    case StageDue(at) => DeadlineActs(w, at);
    case LineMapped(_, at) => ActsLast(StdinClosed(at));
    case AskWithdrawn(ask, _) => ActsLast(if w.reaped then OutputDropped else AskCleared(ask));
    case _ => assert Owed(w, o).Nothing?;
  }

  lemma AnswerActs(w: Watch, id: RequestId, payload: Payload, scene: Scene)
    ensures Acts(AnswerDue(w, id, payload, scene))
  {
    NoActs();
    hide Handed, Learned, Acts;
    if w.underway.Some? {
      HandedActs(w, w.underway.value, payload, scene);
    }
    if id in w.callers && w.callers[id].reply.Some? {
      ActsLast(Settled(w.callers[id].reply.value, Learned(w.callers[id], payload)));
    }
  }

  lemma DeadlineActs(w: Watch, at: Instant)
    ensures Acts(DeadlineDue(w, at))
  {
    NoActs();
    ActsLast(StdinClosed(at));
    ActsLast(Killed(true, at));
    if DeadlineDue(w, at).Then? {
      ActsLast(DeadlineDue(w, at).first);
    }
    hide Acts;
  }

  lemma NoActs()
    ensures Acts(Nothing)
  {
  }

  lemma HaltActs(w: Watch, joined: Option<Token>, scene: Scene)
    ensures Acts(HaltDue(w, joined, scene))
  {
    var first := HaltDue(w, None, scene);
    if scene.active.None? {
      ActsLast(StdinClosed(scene.at));
    } else {
      var rest := if scene.w.writeOk then Nothing else Last(StdinClosed(WrittenAt(scene)));
      ActsLast(StdinClosed(WrittenAt(scene)));
      ActsThen(ControlSent(w.nextId, StopInterrupt, None, WrittenAt(scene), scene.w.writeOk), rest);
    }
    if joined.Some? {
      ActsThen(StopJoined(joined.value), first);
    }
  }

  /** What is no act of the supervisor's happened by itself. */
  lemma Happened(log: seq<Obs>, j: nat)
    requires Lawful(log) && j < |log| && !Act(log[j])
    ensures Watched(log[..j]).ok && Watched(log[..j]).agenda.Nothing?
    ensures Spontaneous(Watched(log[..j]), log[j])
    ensures Performed(log, j + 1, Owed(Watched(log[..j]), log[j]))
  {
    hide Watched, Owed, Spontaneous, Performed, Act;
    var k := Cause(log, j);
    if k < j {
      OwedActs(Watched(log[..k]), log[k]);
      NthActs(Owed(Watched(log[..k]), log[k]), j - k - 1);
    }
    DutyDone(log, j);
  }

  // ---- What leads to what --------------------------------------------------------------------

  /** The line of a turn, preceded by its opening. */
  predicate Opened(agenda: Agenda, n: nat, turn: TurnId, notice: Option<string>) {
    if notice.Some? then
      n > 1 && Nth(agenda, n - 1) == Some(Noticed(turn, notice.value)) && Nth(agenda, n - 2) == Some(TurnStarted(turn))
    else n > 0 && Nth(agenda, n - 1) == Some(TurnStarted(turn))
  }

  /** A line that was written for a caller. */
  predicate LineWritten(o: Obs, reply: Token) {
    (o.UserLine? || o.CompactLine?) && o.reply == reply && o.ok
  }

  /** What a caller learns of a line that was to be written for it. */
  function Reported(ok: bool): Outcome {
    if ok then Outcome.Done else Failed(WriteFailed)
  }

  /** The caller learns it next. */
  predicate Tells(agenda: Agenda, n: nat, reply: Token, outcome: Outcome) {
    Nth(agenda, n + 1) == Some(Settled(reply, outcome))
  }

  predicate TimesOut(outcome: Outcome) {
    outcome.Failed? && outcome.why.TimedOut?
  }

  /** What one leg of a hand-off may hold. */
  predicate LegHolds(agenda: Agenda, n: nat, start: Start) {
    match Nth(agenda, n)
    case Some(UserLine(reply, turn, line, settings, _, _, _, _, _, ok)) =>
      && reply == start.reply && turn == start.turn && line == start.line && settings == start.settings
      && Opened(agenda, n, turn, start.notice) && Tells(agenda, n, reply, Reported(ok))
    case Some(Settled(reply, outcome)) =>
      && reply == start.reply && !outcome.Value? && !TimesOut(outcome)
      && (outcome.Done? ==> n > 0 && Nth(agenda, n - 1).Some? && LineWritten(Nth(agenda, n - 1).value, reply))
    case Some(SettingsSent(reply, stage, wish, _, _, _, _, ok)) =>
      && n == 0 && reply == start.reply && wish == Asks(start.settings, stage)
      && (!ok ==> Tells(agenda, n, reply, Failed(WriteFailed)))
    case Some(o) => o.TurnStarted? || o.Noticed? || o.EntrySynced?
    case None => true
  }

  lemma GoHolds(start: Start, held: Settings, scene: Scene, n: nat)
    ensures LegHolds(Go(start, held, scene), n, start)
  {
    var a := Go(start, held, scene);
    if !scene.w.gaveUp && scene.active.None? {
      var ok := scene.w.writeOk;
      var line := UserLine(start.reply, start.turn, start.line, start.settings, held.mode, held.model, held.effort,
                           None, 0, ok);
      var told := Settled(start.reply, if ok then Done else Failed(WriteFailed));
      assert a == Opening(start.turn, start.notice, Then(line, Last(told)));
      hide Go, Opening, Nth;
      OpeningNth(start.turn, start.notice, line, told, n);
      if n > 0 { OpeningNth(start.turn, start.notice, line, told, n - 1); }
      if n > 1 { OpeningNth(start.turn, start.notice, line, told, n - 2); }
      OpeningNth(start.turn, start.notice, line, told, n + 1);
    } else {
      Unroll(a, n);
      Unroll(Nothing, n);
    }
  }

  lemma NothingNth(n: nat)
    ensures Nth(Nothing, n).None?
  {
  }

  /** After the sync of the entry. */
  lemma SyncedHolds(model: ModelRef, rest: Agenda, n: nat, start: Start)
    requires forall m: nat :: LegHolds(rest, m, start)
    requires Nth(rest, 0).Some? ==> !Nth(rest, 0).value.SettingsSent?
    ensures LegHolds(Then(EntrySynced(model), rest), n, start)
  {
    var a := Then(EntrySynced(model), rest);
    NthTail(a, n);
    NthTail(a, n + 1);
    if n > 0 {
      assert LegHolds(rest, n - 1, start);
      NthTail(a, n - 1);
      if n > 1 {
        NthTail(a, n - 2);
        assert LegHolds(rest, n - 2, start);
      }
      if n > 2 { NthTail(a, n - 3); }
    }
  }

  lemma SendHolds(nextId: RequestId, u: Underway, stage: SetupStage, scene: Scene, n: nat)
    ensures LegHolds(Send(nextId, u, stage, scene), n, u.start)
  {
    Unroll(Send(nextId, u, stage, scene), n);
    Unroll(Send(nextId, u, stage, scene), 1);
    NothingNth(if n >= 5 then n - 5 else 0);
  }

  lemma TellHolds(start: Start, outcome: Outcome, n: nat)
    requires !outcome.Done? && !outcome.Value? && !TimesOut(outcome)
    ensures LegHolds(Tell(start.reply, outcome), n, start)
  {
    Unroll(Tell(start.reply, outcome), n);
    NothingNth(if n >= 5 then n - 5 else 0);
  }

  lemma GoBegins(start: Start, held: Settings, scene: Scene)
    ensures !Go(start, held, scene).first.SettingsSent?
  {
  }

  lemma ReadBackHolds(w: Watch, u: Underway, payload: Payload, scene: Scene, n: nat)
    requires payload.Success? && u.stage.ReadBack?
    ensures LegHolds(ReadBackDue(w, u, payload, scene), n, u.start)
  {
    var held, wanted := Holds(w.held, u, payload), Wanted(w.held, u);
    hide Go, Holds, Applied, Wanted, LegHolds, Nth;
    TellHolds(u.start, Failed(WrongModel(payload.appliedModel, wanted)), n);
    forall m: nat ensures LegHolds(Go(u.start, held, scene), m, u.start) {
      GoHolds(u.start, held, scene, m);
    }
    GoBegins(u.start, held, scene);
    NthTail(Go(u.start, held, scene), 0);
    SyncedHolds(held.model, Go(u.start, held, scene), n, u.start);
    if u.start.settings.effort.Some? {
      var untaken := Failed(EffortNotTaken(u.start.settings.effort.value, wanted));
      forall m: nat ensures LegHolds(Tell(u.start.reply, untaken), m, u.start) {
        TellHolds(u.start, untaken, m);
      }
      NthTail(Tell(u.start.reply, untaken), 0);
      SyncedHolds(held.model, Tell(u.start.reply, untaken), n, u.start);
    }
  }

  lemma HandedHolds(w: Watch, u: Underway, payload: Payload, scene: Scene, n: nat)
    ensures LegHolds(Handed(w, u, payload, scene), n, u.start)
  {
    ChosenStarts(w.held, u);
    if !payload.Success? {
      RefusalIsNoTimeout(u.stage, payload);
    }
    hide Go, Send, Holds, Chosen, ReadBackDue, LegHolds, Nth, StageFailure;
    if !payload.Success? {
      TellHolds(u.start, Failed(StageFailure(u.stage, payload)), n);
    } else {
      match u.stage
      case Mode =>
        SendHolds(w.nextId, Chosen(w.held, u), Model, scene, n);
        SendHolds(w.nextId, Chosen(w.held, u), Effort, scene, n);
        GoHolds(u.start, Holds(w.held, u, payload), scene, n);
      case Model => SendHolds(w.nextId, u, if u.tunes then Effort else ReadBack, scene, n);
      case Effort => SendHolds(w.nextId, u, ReadBack, scene, n);
      case ReadBack => ReadBackHolds(w, u, payload, scene, n);
    }
  }

  lemma RefusalIsNoTimeout(stage: SetupStage, payload: Payload)
    requires !payload.Success?
    ensures !StageFailure(stage, payload).TimedOut?
  {
  }

  lemma ChosenStarts(held: Settings, u: Underway)
    ensures Chosen(held, u).start == u.start
  {
  }

  // ---- Commands ------------------------------------------------------------------------------

  /** The answer to an ask that `c` gives, as it is written. */
  predicate Gives(c: Command, o: Obs, reply: Token) {
    match c
    case RespondApproval(ask, decision, r) =>
      r == reply && o.AskAnswered? && o.kind.Approval? && o.ask == ask && o.told == Some(decision)
    case RespondServerRequest(ask, _, r) =>
      r == reply && o.AskAnswered? && o.kind.ServerRequest? && o.ask == ask && o.told.None?
    case _ => false
  }

  /** The control request that serves a command. */
  predicate Means(c: Command, what: ControlKind) {
    match c
    case Interrupt(_) => what.UserInterrupt?
    case Control(_) => what.PlainControl?
    case StopTask(_) => what.TaskStop?
    case StopBackgroundCommand(_) => what.CommandStop?
    case _ => false
  }

  /** What serving a command may hold. */
  predicate ServiceHolds(agenda: Agenda, n: nat, c: Command, scene: Scene) {
    match Nth(agenda, n)
    case Some(Settled(reply, outcome)) =>
      && reply == c.reply && !outcome.Value? && !TimesOut(outcome)
      && (outcome.Done? ==>
            || (c.StopTask? && scene.w.task.Ended? && n == 0)
            || (n > 0 && Nth(agenda, n - 1).Some? && LineWritten(Nth(agenda, n - 1).value, reply))
            || (1 <= n <= 2 && Nth(agenda, 0).Some? && Gives(c, Nth(agenda, 0).value, reply)
                && Nth(agenda, 0).value.ok))
    case Some(SettingsSent(reply, stage, wish, _, _, _, _, ok)) =>
      && c.StartTurn? && n == 1 && reply == c.reply && wish == Asks(c.settings, stage)
      && (!ok ==> Tells(agenda, n, reply, Failed(WriteFailed)))
    case Some(CompactLine(reply, turn, _, _, ok)) =>
      && c.Compact? && reply == c.reply && turn == c.turn && Opened(agenda, n, turn, c.notice)
      && Tells(agenda, n, reply, Reported(ok))
    case Some(ControlSent(_, what, caller, _, ok)) =>
      && n == 0 && caller == Some(c.reply) && Means(c, what)
      && (!ok ==> Tells(agenda, n, c.reply, Failed(WriteFailed)))
    case Some(AskAnswered(kind, ask, told, ok)) =>
      && n == 0 && Gives(c, Nth(agenda, n).value, c.reply)
      && (if kind.ServerRequest? && ok then
            Nth(agenda, 1) == Some(AskCleared(ask)) && Tells(agenda, 1, c.reply, Outcome.Done)
          else Tells(agenda, n, c.reply, Reported(ok)))
    case Some(AskReinserted(kind, ask)) =>
      && n == 0
      && (if c.RespondApproval? then
            && c.ask == ask && kind.Approval?
            && Tells(agenda, n, c.reply, if scene.w.gaveUp then Dropped else Failed(UnsupportedDecision))
          else
            && c.RespondServerRequest? && c.ask == ask && kind.ServerRequest?
            && Tells(agenda, n, c.reply, if scene.w.gaveUp then Dropped else Failed(UnfitAnswer)))
    case Some(AskRefused(ask)) =>
      && n == 0
      && (if c.RespondServerRequest? then
            c.ask == ask && Nth(agenda, 1) == Some(AskCleared(ask)) && Tells(agenda, 1, c.reply, Failed(Withdrawn))
          else c.RespondApproval? && c.ask == ask && Tells(agenda, n, c.reply, Failed(Withdrawn)))
    case Some(AskCleared(ask)) =>
      && n == 1 && c.RespondServerRequest? && c.ask == ask
      && (Nth(agenda, 0) == Some(AskRefused(ask)) || Nth(agenda, 0) == Some(AskAnswered(ServerRequest, ask, None, true)))
    case Some(o) =>
      o.HandOffBegan? || o.TurnStarted? || o.Noticed?
    case None => true
  }

  lemma CompactHolds(w: Watch, c: Command, scene: Scene, n: nat)
    requires c.Compact?
    ensures ServiceHolds(Service(w, c, scene), n, c, scene)
  {
    var a := Service(w, c, scene);
    if !scene.w.gaveUp && !Occupied(scene) {
      var line := CompactLine(c.reply, c.turn, None, 0, scene.w.writeOk);
      var told := Settled(c.reply, if scene.w.writeOk then Done else Failed(WriteFailed));
      assert a == Opening(c.turn, c.notice, Then(line, Last(told)));
      hide Service, Opening, Nth;
      OpeningNth(c.turn, c.notice, line, told, n);
      if n > 0 { OpeningNth(c.turn, c.notice, line, told, n - 1); }
      if n > 1 { OpeningNth(c.turn, c.notice, line, told, n - 2); }
      OpeningNth(c.turn, c.notice, line, told, n + 1);
    } else {
      Unroll(a, n);
      NothingNth(if n >= 5 then n - 5 else 0);
    }
  }

  lemma RequestHolds(w: Watch, what: ControlKind, c: Command, scene: Scene, n: nat)
    requires Means(c, what)
    ensures ServiceHolds(Request(w.nextId, what, c.reply, scene), n, c, scene)
  {
    Unroll(Request(w.nextId, what, c.reply, scene), n);
    Unroll(Request(w.nextId, what, c.reply, scene), 1);
    NothingNth(if n >= 5 then n - 5 else 0);
  }

  lemma AskHolds(w: Watch, c: Command, scene: Scene, n: nat)
    requires c.RespondApproval? || c.RespondServerRequest?
    ensures ServiceHolds(Service(w, c, scene), n, c, scene)
  {
    Unroll(Service(w, c, scene), n);
    Unroll(Service(w, c, scene), 0);
    Unroll(Service(w, c, scene), 1);
    Unroll(Service(w, c, scene), 2);
    NothingNth(if n >= 5 then n - 5 else 0);
  }

  lemma StartHolds(w: Watch, c: Command, scene: Scene, n: nat)
    requires c.StartTurn?
    ensures ServiceHolds(Service(w, c, scene), n, c, scene)
  {
    Unroll(Service(w, c, scene), n);
    Unroll(Service(w, c, scene), 2);
    NothingNth(if n >= 5 then n - 5 else 0);
  }

  lemma PlainHolds(w: Watch, c: Command, scene: Scene, n: nat)
    requires c.StopTask? || c.StopBackgroundCommand? || c.Stop?
    ensures ServiceHolds(Service(w, c, scene), n, c, scene)
  {
    Unroll(Service(w, c, scene), n);
    Unroll(Service(w, c, scene), 1);
    NothingNth(if n >= 5 then n - 5 else 0);
  }

  lemma CommandHolds(w: Watch, c: Command, scene: Scene, n: nat)
    ensures ServiceHolds(Service(w, c, scene), n, c, scene)
  {
    match c
    case StartTurn(_, _, _, _, _, _) => StartHolds(w, c, scene, n);
    case Interrupt(_) => RequestHolds(w, UserInterrupt, c, scene, n);
    case Control(_) => RequestHolds(w, PlainControl, c, scene, n);
    case RespondApproval(_, _, _) => AskHolds(w, c, scene, n);
    case RespondServerRequest(_, _, _) => AskHolds(w, c, scene, n);
    case Compact(_, _, _) => CompactHolds(w, c, scene, n);
    case _ => PlainHolds(w, c, scene, n);
  }

  // ---- Every event ---------------------------------------------------------------------------

  /** How what is due comes from the event that obliges to it. */
  predicate Explained(w: Watch, o: Obs, n: nat) {
    var due := Nth(Owed(w, o), n);
    due.Some? ==>
      match o
      case Received(c, scene) =>
        if w.halt.Ongoing? then ServiceHolds(Service(w, c, scene), n, c, scene)
        else n == 0 && due.value == Settled(c.reply, Failed(ChildStopped))
      case Answered(id, payload, scene) =>
        if w.underway.Some? && w.underway.value.id == id then
          LegHolds(Handed(w, w.underway.value, payload, scene), n, w.underway.value.start)
        else
          && n == 0 && id in w.callers && w.callers[id].reply.Some?
          && due.value == Settled(w.callers[id].reply.value, Learned(w.callers[id], payload))
      case Stopping(_, joined, scene) =>
        due.value.StopJoined? || (due.value.ControlSent? && due.value.what.StopInterrupt?) || due.value.StdinClosed?
      case StageDue(at) => n == 0 && DeadlineDue(w, at) == Last(due.value)
      case LineMapped(active, at) =>
        n == 0 && active.None? && w.halt.Interrupted? && due.value == StdinClosed(at)
      case AskWithdrawn(ask, found) =>
        n == 0 && found == Some(ServerRequest) && (due.value == AskCleared(ask) || due.value.OutputDropped?)
      case _ => false
  }

  lemma LastNth(o: Obs, n: nat)
    ensures Nth(Last(o), n) == if n == 0 then Some(o) else None
  {
    Unroll(Last(o), n);
    NothingNth(if n >= 5 then n - 5 else 0);
  }

  lemma HaltHolds(w: Watch, joined: Option<Token>, scene: Scene, n: nat)
    ensures var due := Nth(HaltDue(w, joined, scene), n);
            due.Some? ==>
              || due.value.StopJoined? || due.value.StdinClosed?
              || (due.value.ControlSent? && due.value.what.StopInterrupt?)
  {
    Unroll(HaltDue(w, joined, scene), n);
    NothingNth(if n >= 5 then n - 5 else 0);
  }

  lemma DeadlineIsOne(w: Watch, at: Instant)
    ensures DeadlineDue(w, at).Then? ==> DeadlineDue(w, at) == Last(DeadlineDue(w, at).first)
  {
  }

  lemma ReceivedHolds(w: Watch, o: Obs, n: nat)
    requires o.Received?
    ensures Explained(w, o, n)
  {
    hide Nth, Service, ServiceHolds;
    CommandHolds(w, o.command, o.scene, n);
    LastNth(Settled(o.command.reply, Failed(ChildStopped)), n);
  }

  lemma AnsweredHolds(w: Watch, o: Obs, n: nat)
    requires o.Answered?
    ensures Explained(w, o, n)
  {
    NothingNth(n);
    hide Nth, Handed, LegHolds, Learned;
    if w.underway.Some? && w.underway.value.id == o.id {
      HandedHolds(w, w.underway.value, o.payload, o.scene, n);
    } else if o.id in w.callers && w.callers[o.id].reply.Some? {
      LastNth(Settled(w.callers[o.id].reply.value, Learned(w.callers[o.id], o.payload)), n);
    }
  }

  lemma TimersHold(w: Watch, o: Obs, n: nat)
    requires o.StageDue? || o.LineMapped?
    ensures Explained(w, o, n)
  {
    NothingNth(n);
    hide Nth, DeadlineDue;
    if o.LineMapped? {
      LastNth(StdinClosed(o.at), n);
    } else {
      DeadlineIsOne(w, o.at);
      if DeadlineDue(w, o.at).Then? {
        LastNth(DeadlineDue(w, o.at).first, n);
      }
    }
  }

  lemma StopHolds(w: Watch, o: Obs, n: nat)
    requires o.Stopping? || o.AskWithdrawn?
    ensures Explained(w, o, n)
  {
    NothingNth(n);
    hide Nth, HaltDue;
    if o.Stopping? {
      HaltHolds(w, o.joined, o.scene, n);
    } else {
      LastNth(if w.reaped then OutputDropped else AskCleared(o.ask), n);
    }
  }

  /** Events that oblige to nothing. */
  lemma NothingHolds(w: Watch, o: Obs, n: nat)
    requires Owed(w, o).Nothing?
    ensures Explained(w, o, n)
  {
    NothingNth(n);
    hide Nth, Owed;
  }

  lemma OwedHolds(w: Watch, o: Obs, n: nat)
    ensures Explained(w, o, n)
  {
    if !o.Received? && !o.Answered? && !o.StageDue? && !o.LineMapped? && !o.Stopping? && !o.AskWithdrawn? {
      assert Owed(w, o).Nothing?;
    }
    hide Explained, Owed;
    if o.Received? {
      ReceivedHolds(w, o, n);
    } else if o.Answered? {
      AnsweredHolds(w, o, n);
    } else if o.StageDue? || o.LineMapped? {
      TimersHold(w, o, n);
    } else if o.Stopping? || o.AskWithdrawn? {
      StopHolds(w, o, n);
    } else {
      NothingHolds(w, o, n);
    }
  }

  // ---- What the watch remembers --------------------------------------------------------------

  /** A `StartTurn` with this content came out of the queue. */
  predicate Came(log: seq<Obs>, start: Start) {
    exists i :: 0 <= i < |log| && log[i].Received? && StartOf(log[i].command) == Some(start)
  }

  predicate Remembered(log: seq<Obs>, w: Watch) {
    && (w.taken.Some? ==> Came(log, w.taken.value))
    && (w.hand.Some? ==> Came(log, w.hand.value.start))
    && (w.underway.Some? ==> Came(log, w.underway.value.start))
  }

  /** Where the starts the watch knows come from. */
  predicate StartsFrom(w: Watch, o: Obs, v: Watch) {
    && (v.taken == w.taken || (o.Received? && v.taken == StartOf(o.command)))
    && (v.hand.Some? ==>
          || (w.hand.Some? && v.hand.value.start == w.hand.value.start)
          || (w.taken.Some? && v.hand.value.start == w.taken.value)
          || (w.underway.Some? && v.hand.value.start == w.underway.value.start))
    && (v.underway.Some? ==>
          || (w.underway.Some? && v.underway.value.start == w.underway.value.start)
          || (w.hand.Some? && v.underway.value.start == w.hand.value.start))
  }

  lemma NoticedStarts(w: Watch, o: Obs)
    ensures StartsFrom(w, o, Notices(w, o))
  {
    if o.Answered? {
      AnsweredStarts(w, o);
    }
    hide Holds, Chosen;
  }

  lemma AnsweredStarts(w: Watch, o: Obs)
    requires o.Answered?
    ensures StartsFrom(w, o, Notices(w, o))
  {
    if w.underway.Some? && w.underway.value.id == o.id && o.payload.Success? {
      HandedStarts(w, o);
    }
    hide Holds, Chosen;
  }

  lemma HandedStarts(w: Watch, o: Obs)
    requires o.Answered? && w.underway.Some? && w.underway.value.id == o.id && o.payload.Success?
    ensures var v := Notices(w, o);
            v.taken == w.taken && v.underway.None? && v.hand.Some? && v.hand.value.start == w.underway.value.start
  {
    ChosenStarts(w.held, w.underway.value);
    hide Holds, Chosen;
  }

  lemma SeenStarts(w: Watch, o: Obs)
    ensures StartsFrom(w, o, Sees(w, o))
  {
  }

  lemma StartsStay(w: Watch, o: Obs)
    ensures StartsFrom(w, o, Follow(w, o))
  {
    NoticedStarts(w, o);
    SeenStarts(w, o);
    hide Owed, Spontaneous, Notices, Sees;
  }

  lemma CameBefore(init: seq<Obs>, o: Obs, start: Start)
    requires Came(init, start)
    ensures Came(init + [o], start)
  {
    var i :| 0 <= i < |init| && init[i].Received? && StartOf(init[i].command) == Some(start);
    assert (init + [o])[i] == init[i];
  }

  lemma {:induction false} Remembers(log: seq<Obs>)
    ensures Remembered(log, Watched(log))
    decreases |log|
  {
    if log != [] {
      var init, o := log[..|log| - 1], log[|log| - 1];
      assert log == init + [o] && Watched(log) == Follow(Watched(init), o);
      Remembers(init);
      StartsStay(Watched(init), o);
      var w, v := Watched(init), Watched(log);
      hide Watched, Follow, Came;
      if w.taken.Some? { CameBefore(init, o, w.taken.value); }
      if w.hand.Some? { CameBefore(init, o, w.hand.value.start); }
      if w.underway.Some? { CameBefore(init, o, w.underway.value.start); }
      if o.Received? && StartOf(o.command).Some? { CameNow(init, o); }
    }
  }

  lemma CameNow(init: seq<Obs>, o: Obs)
    requires o.Received? && StartOf(o.command).Some?
    ensures Came(init + [o], StartOf(o.command).value)
  {
    assert (init + [o])[|init|] == o;
  }

  /** The request a caller waits for, as it was written. */
  predicate AskedBy(o: Obs, id: RequestId, caller: Caller) {
    o.ControlSent? && o.ok && o.id == id && o.caller == caller.reply && o.what.PlainControl? == caller.value
  }

  /** How the callers change. */
  predicate CallersFrom(w: Watch, o: Obs, id: RequestId, v: Watch) {
    && (id in v.callers ==>
          AskedBy(o, id, v.callers[id]) || (id in w.callers && v.callers[id] == w.callers[id]))
    && (id in w.callers && !(o.Answered? && o.id == id) && !(o.ControlSent? && o.id == id) && !o.WaitersFailed? ==>
          id in v.callers && v.callers[id] == w.callers[id])
  }

  lemma NoticedCallers(w: Watch, o: Obs, id: RequestId)
    ensures CallersFrom(w, o, id, Notices(w, o))
  {
    hide Holds, Chosen;
  }

  lemma SeenCallers(w: Watch, o: Obs, id: RequestId)
    ensures CallersFrom(w, o, id, Sees(w, o))
  {
  }

  lemma CallersStay(w: Watch, o: Obs, id: RequestId)
    ensures CallersFrom(w, o, id, Follow(w, o))
  {
    NoticedCallers(w, o, id);
    SeenCallers(w, o, id);
    hide Owed, Spontaneous, Notices, Sees;
  }

  /** Whom a caller's answer is for was written with its request. */
  lemma {:induction false} CallerAsked(log: seq<Obs>, id: RequestId) returns (i: nat)
    requires id in Watched(log).callers
    ensures i < |log| && AskedBy(log[i], id, Watched(log).callers[id])
    decreases |log|
  {
    var init, o := log[..|log| - 1], log[|log| - 1];
    CallersStay(Watched(init), o, id);
    hide Follow;
    if AskedBy(o, id, Watched(log).callers[id]) {
      i := |log| - 1;
    } else {
      i := CallerAsked(init, id);
    }
  }

  /** The request of a hand-off as it was written. */
  predicate SentFor(o: Obs, start: Start) {
    o.SettingsSent? && o.reply == start.reply && o.wish == Asks(start.settings, o.stage)
  }

  /** What obliged to a settings request: a `StartTurn`, or the answer to the one before. */
  predicate SendCause(w: Watch, o: Obs, n: nat, sent: Obs) {
    || (o.Received? && n == 1 && StartOf(o.command).Some? && SentFor(sent, StartOf(o.command).value)
        && Owed(w, o).first == HandOffBegan(o.command.reply, o.scene.at))
    || (o.Answered? && n == 0 && w.underway.Some? && w.underway.value.id == o.id && o.payload.Success?
        && SentFor(sent, w.underway.value.start))
  }

  lemma SendCaused(w: Watch, o: Obs, n: nat)
    requires Nth(Owed(w, o), n).Some? && Nth(Owed(w, o), n).value.SettingsSent?
    ensures SendCause(w, o, n, Nth(Owed(w, o), n).value)
  {
    OwedHolds(w, o, n);
    if o.Answered? && !o.payload.Success? && w.underway.Some? {
      RefusalIsOne(w, w.underway.value, o.payload, o.scene, n);
    }
    if o.Received? {
      StartBegins(w, o.command, o.scene, n);
    }
    hide Nth, Service, Handed, Learned, DeadlineDue, HaltDue, Asks;
  }

  lemma RefusalIsOne(w: Watch, u: Underway, payload: Payload, scene: Scene, n: nat)
    requires !payload.Success?
    ensures Nth(Handed(w, u, payload, scene), n).Some? ==> Nth(Handed(w, u, payload, scene), n).value.Settled?
  {
    LastNth(Settled(u.start.reply, Failed(StageFailure(u.stage, payload))), n);
  }

  lemma StartBegins(w: Watch, c: Command, scene: Scene, n: nat)
    requires Nth(Service(w, c, scene), n).Some? && Nth(Service(w, c, scene), n).value.SettingsSent?
    ensures c.StartTurn? ==> Service(w, c, scene).Then? && Service(w, c, scene).first == HandOffBegan(c.reply, scene.at)
  {
    Unroll(Service(w, c, scene), n);
    NothingNth(if n >= 5 then n - 5 else 0);
  }

  /** A settings request is that of the hand-off in hand, and no other is in flight. */
  predicate HandSends(w: Watch, o: Obs) {
    w.hand.Some? && SentFor(o, w.hand.value.start) && w.underway.None? && w.agenda.Then?
  }

  lemma SentByHand(log: seq<Obs>, i: nat)
    requires Watched(log).ok && i < |log| && log[i].SettingsSent?
    ensures HandSends(Watched(log[..i]), log[i])
  {
    hide Watched, Owed, SentFor, HandSends, Spontaneous;
    var k := Cause(log, i);
    OkBefore(log, i + 1);
    Unfolds(log, i);
    FollowedOk(Watched(log[..i]), log[i]);
    NotSpontaneous(Watched(log[..i]), log[i]);
    assert k < i;
    SentSince(log, k, i);
  }

  lemma SentSince(log: seq<Obs>, k: nat, i: nat)
    requires Watched(log).ok && k < i < |log| && log[i].SettingsSent?
    requires Watched(log[..k]).agenda.Nothing?
    requires Nth(Owed(Watched(log[..k]), log[k]), i - k - 1) == Some(log[i])
    ensures HandSends(Watched(log[..i]), log[i])
  {
    hide Watched, Owed, SentFor, Follow, Spontaneous;
    var w := Watched(log[..k]);
    SendCaused(w, log[k], i - k - 1);
    Unfolds(log, k);
    OkBefore(log, k + 1);
    FollowedOk(w, log[k]);
    if log[k].Received? {
      Unfolds(log, k + 1);
      OkBefore(log, k + 2);
      FollowedOk(Watched(log[..k + 1]), log[k + 1]);
      FirstThen(Owed(w, log[k]), i - k - 1);
      BeganInHand(w, log[k], log[k + 1]);
    } else {
      GoesInHand(w, log[k]);
      NthTail(Owed(w, log[k]), 0);
    }
  }

  lemma FirstThen(agenda: Agenda, n: nat)
    requires n == 1 && Nth(agenda, n).Some?
    ensures agenda.Then? && agenda.rest.Then?
  {
    Unroll(agenda, n);
  }

  lemma NotSpontaneous(w: Watch, o: Obs)
    requires o.SettingsSent? || o.ControlSent?
    ensures !Spontaneous(w, o)
  {
  }

  lemma BeganInHand(w: Watch, o: Obs, began: Obs)
    requires o.Received? && StartOf(o.command).Some? && w.agenda.Nothing? && Owed(w, o).Then?
    requires Owed(w, o).first == HandOffBegan(o.command.reply, o.scene.at) && Owed(w, o).rest.Then?
    requires began == HandOffBegan(o.command.reply, o.scene.at) && Spontaneous(w, o)
    ensures var v := Follow(Follow(w, o), began);
            v.hand.Some? && v.hand.value.start == StartOf(o.command).value && v.underway.None? && v.agenda.Then?
  {
    StartsAlone(w, o);
    hide Owed, Spontaneous;
  }

  /** A hand-off begins only with none in flight. */
  lemma StartsAlone(w: Watch, o: Obs)
    requires o.Received? && StartOf(o.command).Some? && Owed(w, o).Then? && Owed(w, o).first.HandOffBegan?
    requires Spontaneous(w, o)
    ensures w.underway.None?
  {
    hide Send;
  }

  lemma GoesInHand(w: Watch, o: Obs)
    requires o.Answered? && w.agenda.Nothing? && w.underway.Some? && w.underway.value.id == o.id && o.payload.Success?
    ensures Follow(w, o).hand.Some? && Follow(w, o).hand.value.start == w.underway.value.start
    ensures Follow(w, o).underway.None?
  {
    ChosenStarts(w.held, w.underway.value);
    hide Owed, Spontaneous, Holds, Chosen;
  }

  /** The request in flight, as it was written. */
  predicate InFlight(o: Obs, u: Underway) {
    && SentFor(o, u.start) && o.ok
    && o.stage == u.stage && o.id == u.id && o.at == u.sent && o.deadline == u.deadline
  }

  predicate UnderwayFrom(w: Watch, o: Obs, v: Watch) {
    v.underway.Some? ==>
      || v.underway == w.underway
      || (o.SettingsSent? && o.ok && w.hand.Some?
          && v.underway.value == w.hand.value.(stage := o.stage, id := o.id, sent := o.at, deadline := o.deadline))
  }

  lemma NoticedUnderway(w: Watch, o: Obs)
    ensures UnderwayFrom(w, o, Notices(w, o))
  {
    hide Holds, Chosen;
  }

  lemma SeenUnderway(w: Watch, o: Obs)
    ensures UnderwayFrom(w, o, Sees(w, o))
  {
  }

  lemma UnderwayStays(w: Watch, o: Obs)
    ensures UnderwayFrom(w, o, Follow(w, o))
  {
    NoticedUnderway(w, o);
    SeenUnderway(w, o);
    hide Owed, Spontaneous, Notices, Sees;
  }

  lemma {:induction false} UnderwaySent(log: seq<Obs>, n: nat) returns (i: nat)
    requires Watched(log).ok && n <= |log| && Watched(log[..n]).underway.Some?
    ensures i < n && InFlight(log[i], Watched(log[..n]).underway.value)
    decreases n
  {
    assert n > 0 by { NothingUnderway(log, n); }
    hide Watched, Follow, SentFor, Owed;
    Unfolds(log, n - 1);
    var w, o := Watched(log[..n - 1]), log[n - 1];
    UnderwayStays(w, o);
    if Watched(log[..n]).underway == w.underway {
      i := UnderwaySent(log, n - 1);
    } else {
      i := n - 1;
      SentByHand(log, i);
    }
  }

  lemma NothingUnderway(log: seq<Obs>, n: nat)
    requires n <= |log| && Watched(log[..n]).underway.Some?
    ensures n > 0
  {
  }

  // ---- As long as nothing happens to it ------------------------------------------------------

  predicate CallsFor(o: Obs, id: RequestId) {
    (o.Answered? && o.id == id) || (o.ControlSent? && o.id == id) || o.WaitersFailed?
  }

  /** A caller waits until its answer. */
  lemma {:induction false} StillWaits(log: seq<Obs>, i: nat, n: nat, id: RequestId, caller: Caller)
    requires i < n <= |log| && AskedBy(log[i], id, caller) && Watched(log).ok
    requires forall l | i < l < n :: !CallsFor(log[l], id)
    ensures id in Watched(log[..n]).callers && Watched(log[..n]).callers[id] == caller
    decreases n
  {
    hide Watched, Owed, Spontaneous, CallsFor;
    OkBefore(log, n);
    Unfolds(log, n - 1);
    FollowedOk(Watched(log[..n - 1]), log[n - 1]);
    if n - 1 == i {
      NotSpontaneous(Watched(log[..i]), log[i]);
      Joins(Watched(log[..i]), log[i], id, caller);
    } else {
      StillWaits(log, i, n - 1, id, caller);
      StaysCaller(Watched(log[..n - 1]), log[n - 1], id);
    }
  }

  lemma Joins(w: Watch, o: Obs, id: RequestId, caller: Caller)
    requires AskedBy(o, id, caller) && w.agenda.Then?
    ensures id in Follow(w, o).callers && Follow(w, o).callers[id] == caller
  {
  }

  lemma StaysCaller(w: Watch, o: Obs, id: RequestId)
    requires id in w.callers && !CallsFor(o, id)
    ensures id in Follow(w, o).callers && Follow(w, o).callers[id] == w.callers[id]
  {
    CallersStay(w, o, id);
    hide Follow;
  }

  /** What ends with the child never comes back, and a stop is never taken back. */
  predicate Onward(w: Watch, v: Watch) {
    && (w.over ==> v.over)
    && (!w.halt.Ongoing? ==> !v.halt.Ongoing?)
    && (w.reaped ==> v.reaped)
  }

  /** Whichever way the watch learns of `o`. */
  predicate Learns(w: Watch, o: Obs, v: Watch) {
    Onward(w, v) && (v.halt == w.halt || HaltFrom(o, v.halt))
  }

  lemma NoticedLearns(w: Watch, o: Obs)
    ensures Learns(w, o, Notices(w, o))
    ensures o.WaitersFailed? ==> Notices(w, o).over
    ensures o.Stopping? ==> !Notices(w, o).halt.Ongoing?
  {
    hide Holds, Chosen;
  }

  lemma SeenLearns(w: Watch, o: Obs)
    ensures Learns(w, o, Sees(w, o))
  {
  }

  lemma OnwardOne(w: Watch, o: Obs)
    ensures Learns(w, o, Follow(w, o))
    ensures w.agenda.Nothing? && o.WaitersFailed? ==> Follow(w, o).over
    ensures w.agenda.Nothing? && o.Stopping? ==> !Follow(w, o).halt.Ongoing?
  {
    NoticedLearns(w, o);
    SeenLearns(w, o);
    hide Owed, Spontaneous, Notices, Sees, HaltFrom;
  }

  lemma {:induction false} OnwardAll(log: seq<Obs>, i: nat, n: nat)
    requires i <= n <= |log|
    ensures Onward(Watched(log[..i]), Watched(log[..n]))
    decreases n
  {
    hide Watched, Follow, HaltFrom;
    if i < n {
      OnwardAll(log, i, n - 1);
      Unfolds(log, n - 1);
      OnwardOne(Watched(log[..n - 1]), log[n - 1]);
    }
  }

  /** Where the stop's deadline comes from. */
  predicate HaltFrom(o: Obs, halt: Halt) {
    match halt
    case Ongoing => false
    case Interrupted(until) => o.Stopping? && until == o.scene.at + STOP_INTERRUPT_GRACE
    case Shut(until) => o.StdinClosed? && until == o.at + STOP_EXIT_GRACE
  }

  lemma {:induction false} HaltBegan(log: seq<Obs>, n: nat) returns (i: nat)
    requires n <= |log| && !Watched(log[..n]).halt.Ongoing?
    ensures i < n && HaltFrom(log[i], Watched(log[..n]).halt)
    decreases n
  {
    assert n > 0;
    hide Watched, Follow, HaltFrom;
    Unfolds(log, n - 1);
    OnwardOne(Watched(log[..n - 1]), log[n - 1]);
    if HaltFrom(log[n - 1], Watched(log[..n]).halt) {
      i := n - 1;
    } else {
      i := HaltBegan(log, n - 1);
    }
  }

  lemma ReapNoticed(w: Watch, o: Obs)
    ensures Follow(w, o).reaped ==> w.reaped || o.Reaped?
  {
    NoticedReap(w, o);
    SeenReap(w, o);
    hide Owed, Spontaneous, Notices, Sees;
  }

  lemma NoticedReap(w: Watch, o: Obs)
    ensures Notices(w, o).reaped ==> w.reaped || o.Reaped?
  {
    hide Holds, Chosen;
  }

  lemma SeenReap(w: Watch, o: Obs)
    ensures Sees(w, o).reaped == w.reaped
  {
  }

  lemma {:induction false} ReapedBefore(log: seq<Obs>, n: nat) returns (i: nat)
    requires n <= |log| && Watched(log[..n]).reaped
    ensures i < n && log[i].Reaped?
    decreases n
  {
    assert n > 0;
    hide Watched, Follow;
    Unfolds(log, n - 1);
    ReapNoticed(Watched(log[..n - 1]), log[n - 1]);
    if log[n - 1].Reaped? {
      i := n - 1;
    } else {
      i := ReapedBefore(log, n - 1);
    }
  }

  // ---- A hand-off's request in flight --------------------------------------------------------

  /** The caller was told, or is told next. */
  predicate ToldSince(log: seq<Obs>, i: nat, n: nat, w: Watch, reply: Token) {
    || (exists l | i < l < n && l < |log| :: log[l].Settled? && log[l].reply == reply)
    || (w.agenda.Then? && w.agenda.first.Settled? && w.agenda.first.reply == reply)
  }

  /** What may end a request in flight. */
  predicate UnderwayEnds(w: Watch, o: Obs, v: Watch)
    requires w.underway.Some?
  {
    var u := w.underway.value;
    || v.underway == w.underway
    || (o.Answered? && o.id == u.id)
    || o.SettingsSent?
    || (o.Settled? && o.reply == u.start.reply)
    || (v.agenda.Then? && v.agenda.first.Settled? && v.agenda.first.reply == u.start.reply)
  }

  lemma UnderwayEnding(w: Watch, o: Obs)
    requires w.underway.Some? && Follow(w, o).ok
    ensures UnderwayEnds(w, o, Follow(w, o))
  {
    hide Service, Handed, HaltDue, Holds, Chosen;
    if w.agenda.Then? {
      SeenEnding(w, o);
    } else {
      NoticedEnding(w, o);
    }
  }

  lemma SeenEnding(w: Watch, o: Obs)
    ensures Sees(w, o).underway == w.underway || o.SettingsSent?
  {
  }

  lemma NoticedEnding(w: Watch, o: Obs)
    requires w.underway.Some? && w.agenda.Nothing? && Spontaneous(w, o)
    ensures UnderwayEnds(w, o, Follow(w, o))
  {
    hide Service, Handed, HaltDue, Holds, Chosen, Learned;
  }

  lemma {:induction false} StillUnderway(log: seq<Obs>, i: nat, n: nat)
    requires i < n <= |log| && Watched(log).ok && log[i].SettingsSent? && log[i].ok
    requires forall l | i < l < n :: !(log[l].Answered? && log[l].id == log[i].id)
    ensures var w := Watched(log[..n]);
            || (w.underway.Some? && InFlight(log[i], w.underway.value))
            || ToldSince(log, i, n, w, log[i].reply)
    decreases n
  {
    hide Watched, Follow, InFlight, SentFor, UnderwayEnds;
    OkBefore(log, n);
    Unfolds(log, n - 1);
    var w, o, v := Watched(log[..n - 1]), log[n - 1], Watched(log[..n]);
    if n - 1 == i {
      SentByHand(log, i);
      GoesUnderway(w, o);
    } else {
      StillUnderway(log, i, n - 1);
      if w.underway.Some? && InFlight(log[i], w.underway.value) {
        UnderwayEnding(w, o);
        if o.SettingsSent? {
          SentByHand(log, n - 1);
        }
        EndsTold(log, i, n, w, v);
      } else {
        ToldStays(log, i, n, w, v);
      }
    }
  }

  lemma GoesUnderway(w: Watch, o: Obs)
    requires o.SettingsSent? && o.ok && HandSends(w, o)
    ensures Follow(w, o).underway.Some? && InFlight(o, Follow(w, o).underway.value)
  {
    hide Asks;
  }

  lemma EndsTold(log: seq<Obs>, i: nat, n: nat, w: Watch, v: Watch)
    requires i < n - 1 < |log| && log[i].SettingsSent? && w.underway.Some? && InFlight(log[i], w.underway.value)
    requires UnderwayEnds(w, log[n - 1], v)
    requires !(log[n - 1].Answered? && log[n - 1].id == log[i].id) && !log[n - 1].SettingsSent?
    ensures (v.underway.Some? && InFlight(log[i], v.underway.value)) || ToldSince(log, i, n, v, log[i].reply)
  {
    hide Asks;
  }

  lemma ToldStays(log: seq<Obs>, i: nat, n: nat, w: Watch, v: Watch)
    requires i < n - 1 < |log| && log[i].SettingsSent? && ToldSince(log, i, n - 1, w, log[i].reply)
    requires v == Follow(w, log[n - 1]) && v.ok
    ensures ToldSince(log, i, n, v, log[i].reply)
  {
    FollowedOk(w, log[n - 1]);
    hide Follow;
  }
}
