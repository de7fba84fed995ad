/** Concrete runs that show why the guarantees need the conditions they are stated under. */
module ToolCounterexamples {
  import opened Common
  import opened ToolRecovery
  import opened ToolSafety
  import opened ToolTranscript

  ghost predicate Reaches(s: State, t: State) {
    exists states: seq<State>, actions: seq<Action> ::
      IsRun(states, actions) && states[0] == s && states[|states| - 1] == t
  }

  lemma Onwards(s: State, t: State, a: Action, u: State)
    requires Reaches(s, t) && Enabled(t, a) && u == Step(t, a)
    ensures Reaches(s, u)
  {
    hide Step, Enabled;
    var states, actions :| IsRun(states, actions) && states[0] == s && states[|states| - 1] == t;
    var more, done := states + [u], actions + [a];
    forall k | 0 <= k < |done| ensures Enabled(more[k], done[k]) && more[k + 1] == Step(more[k], done[k]) {
      if k < |actions| { assert more[k] == states[k] && more[k + 1] == states[k + 1] && done[k] == actions[k]; }
    }
    assert IsRun(more, done);
  }

  lemma GateOnwards(s: State, t: State, a: GateAction, u: State)
    requires Reaches(s, t) && GateEnabled(t, a) && u == GateStep(t, a)
    ensures Reaches(s, u)
  {
    hide Reaches, GateEnabled, GateStep;
    Onwards(s, t, Gate(a), u);
  }

  lemma RunOnwards(s: State, t: State, a: RunAction, u: State)
    requires Reaches(s, t) && RunEnabled(t, a) && u == RunStep(t, a)
    ensures Reaches(s, u)
  {
    hide Reaches, RunEnabled, RunStep;
    Onwards(s, t, Run(a), u);
  }

  lemma TurnOnwards(s: State, t: State, a: TurnAction, u: State)
    requires Reaches(s, t) && TurnEnabled(t, a) && u == TurnStep(t, a)
    ensures Reaches(s, u)
  {
    hide Reaches, TurnEnabled, TurnStep;
    Onwards(s, t, Turn(a), u);
  }

  lemma StopOnwards(s: State, t: State, a: StopAction, u: State)
    requires Reaches(s, t) && StopEnabled(t, a) && u == StopStep(t, a)
    ensures Reaches(s, u)
  {
    hide Reaches, StopEnabled, StopStep;
    Onwards(s, t, Stop(a), u);
  }

  lemma Standing(s: State)
    ensures Reaches(s, s)
  {
    assert IsRun([s], []);
  }

  /** One pure call under a policy. */
  function SomeCall(p: Policy): Call {
    Call(0, "call", true, true, Pure, p, false, false, "tool:pure")
  }

  lemma OneCall(c: Call)
    ensures IssuedBy([c]) == map[c.inv := c] && Unfinished([c], {}) == [c]
  {
  }

  /** The batch that holds only this call, with its record at hand. */
  predicate AtSomeCall(t: State, p: Policy) {
    && t.control == Gating(GateState([SomeCall(p)], 0, AtCall, [], {}))
    && 0 in t.store && !Settled(t.store[0]) && !Unrepeatable(SomeCall(p), t.store[0])
    && t.issued == map[0 := SomeCall(p)] && !t.cancelled && t.request.allowWrite
    && ResultMessages(t.transcript.messages, SomeCall(p)) == []
  }

  lemma Accepting(s: State, t: State, p: Policy) returns (u: State)
    requires Reaches(s, t) && AtSomeCall(t, p)
    ensures Reaches(s, u) && u == t.(control := u.control, store := u.store) && 0 in u.store
    ensures u.control.Gating? && u.control.gate == GateState([SomeCall(p)], 0, AtPolicy, [], if Interrupted(t.store[0]) then {0} else {})
    ensures u.store[0].result == t.store[0].result && u.store[0].status.Validated?
  {
    hide Reaches, Settled, Unrepeatable, UnknownStep, ReceiveStep, ReplayStep, UnclearStep, RejectStep, AppendEarlyStep, ApplyPolicyStep, AskStep, AnswerStep;
    u := AcceptStep(t);
    GateOnwards(s, t, Accept, u);
  }

  lemma Approving(s: State, t: State, p: Policy) returns (u: State)
    requires Reaches(s, t) && AtSomeCall(t, p)
    ensures Reaches(s, u) && u.log == t.log + [Allowed(SomeCall(p), ByMode)]
    ensures u == t.(control := u.control, store := u.store, log := u.log)
    ensures u.control.Gating? && u.control.gate == GateState([SomeCall(p)], 1, AtCall, [SomeCall(p)], if Interrupted(t.store[0]) then {0} else {})
    ensures 0 in u.store && u.store[0].result == t.store[0].result
  {
    hide Reaches, ResultMessages, Settled, Unrepeatable, UnknownStep, ReceiveStep, ReplayStep, UnclearStep, RejectStep, AcceptStep, AppendEarlyStep, AskStep, AnswerStep;
    var s1 := Accepting(s, t, p);
    u := ApplyPolicyStep(s1);
    GateOnwards(s, s1, ApplyPolicy, u);
  }

  /** From the examination of the call to the start of its body. */
  lemma Starting(s: State, t: State, p: Policy) returns (u: State)
    requires Reaches(s, t) && AtSomeCall(t, p) && (p.Reconcile? ==> !Interrupted(t.store[0]))
    ensures Reaches(s, u)
    ensures u == t.(control := u.control, store := u.store, log := u.log)
    ensures u.log == t.log + [Allowed(SomeCall(p), ByMode)] + [BodyStarted(SomeCall(p))]
    ensures u.control.Executing? && u.control.exec.progress == map[0 := BodyRunning] && 0 in u.store
    ensures u.control.exec.allowed == [SomeCall(p)] && (Interrupted(t.store[0]) || u.control.exec.recovering == {})
    ensures u.store[0].status.Running? && (t.store[0].result.None? ==> u.store[0].result.None?)
  {
    hide Reaches, ResultMessages, Settled, Unrepeatable, ReconcileFoundStep, EndBodyStep, EndExecutionStep, CollectNextStep, MayRepeat, MayReconcile;
    OneCall(SomeCall(p));
    var s2 := Approving(s, t, p);
    var s3 := StartExecutionStep(s2);
    assert s3.control.exec.progress == map[0 := Queued];
    RunOnwards(s, s2, StartExecution, s3);
    var s4 := SaveAttemptStep(s3, 0);
    RunOnwards(s, s3, SaveAttempt(0), s4);
    u := StartBodyStep(s4, 0);
    RunOnwards(s, s4, StartBody(0), u);
  }

  function Fresh0(): State {
    Start(Request(Ask, true), [])
  }

  function Asked(c: Call): seq<Message> {
    [UserMessage(0), AssistantMessage(1, [c])]
  }

  function AskedTranscript(c: Call): Transcript {
    Transcript(Asked(c), [Row(0, UserMessage(0)), Row(2, AssistantMessage(1, [c]))], 2)
  }

  lemma MayAsk(c: Call)
    requires c.inv == 0
    ensures MayTakeTurn(Fresh0(), [c])
  {
  }

  lemma AskedRowsAppend(c: Call)
    ensures Append(Fresh0().transcript, AssistantMessage(1, [c])) == AskedTranscript(c)
  {
  }

  /** The first model turn issues one call. */
  lemma Asking(c: Call) returns (u: State)
    requires c.inv == 0
    ensures Reaches(Fresh0(), u)
    ensures u == Fresh0().(control := TurnSaved([c]), issued := map[0 := c], transcript := AskedTranscript(c))
  {
    hide Reaches, TurnCheckpointStep, LoopCheckpointStep, StartBatchStep, EndBatchStep, Append, MayTakeTurn, AskedTranscript;
    OneCall(c);
    MayAsk(c);
    AskedRowsAppend(c);
    Standing(Fresh0());
    u := ModelTurnStep(Fresh0(), [c]);
    assert map[] + map[0 := c] == map[0 := c];
    TurnOnwards(Fresh0(), Fresh0(), ModelTurn([c]), u);
  }

  /** From the start of a run to the examination of its first call. */
  lemma Opening(c: Call) returns (u: State)
    requires c.inv == 0
    ensures Reaches(Fresh0(), u)
    ensures u.control == Gating(GateState([c], 0, AtCall, [], {})) && u.issued == map[0 := c] && u.store == map[]
    ensures u.transcript == AskedTranscript(c)
    ensures u.checkpoint == Checkpoint(Asked(c), {}, [c], ToolBatchPhase) && u.completed == {}
    ensures u.context == Context({}, [c], {}) && !u.cancelled && !u.needsHuman && u.request == Fresh0().request
    ensures u.log == [BatchOpened] && u.spliced == 0
  {
    hide Reaches, InsertRow, ModelTurnStep, LoopCheckpointStep, EndBatchStep;
    OneCall(c);
    var s1 := Asking(c);
    var s2 := TurnCheckpointStep(s1);
    TurnOnwards(Fresh0(), s1, TurnCheckpoint, s2);
    u := StartBatchStep(s2);
    TurnOnwards(Fresh0(), s2, StartBatch, u);
  }

  lemma NoResultYet(c: Call)
    ensures ResultMessages(Asked(c), c) == []
  {
    assert Asked(c)[|Asked(c)| - 1] == AssistantMessage(1, [c]);
    assert Carries(AssistantMessage(1, [c]), c.inv) by { assert [c][0].inv == c.inv; }
  }

  lemma FirstStart(p: Policy) returns (u: State)
    ensures Reaches(Fresh0(), u) && u.control.Executing? && u.control.exec.progress == map[0 := BodyRunning]
    ensures 0 in u.store && u.store[0].status.Running? && u.store[0].result.None? && u.issued == map[0 := SomeCall(p)] && !u.cancelled && u.request == Fresh0().request
    ensures u.log == FirstLog(p)
    ensures u.checkpoint == Checkpoint(Asked(SomeCall(p)), {}, [SomeCall(p)], ToolBatchPhase)
    ensures u.transcript == AskedTranscript(SomeCall(p)) && u.control.exec.allowed == [SomeCall(p)] && u.spliced == 0
    ensures u.completed == {} && u.context == Context({}, [SomeCall(p)], {})
  {
    hide Reaches, UnknownStep, ReplayStep, UnclearStep, RejectStep, AcceptStep, AppendEarlyStep, ApplyPolicyStep, AskStep, AnswerStep;
    var s1 := Opening(SomeCall(p));
    NoResultYet(SomeCall(p));
    var s2 := ReceiveStep(s1);
    GateOnwards(Fresh0(), s1, Receive, s2);
    u := Starting(Fresh0(), s2, p);
  }

  /** After a crash, resuming from the batch checkpoint examines the call again. */
  lemma Reopening(s: State, t: State, c: Call) returns (u: State)
    requires Reaches(s, t) && t.checkpoint == Checkpoint(t.checkpoint.messages, {}, [c], ToolBatchPhase)
    ensures Reaches(s, u) && u.control == Gating(GateState([c], 0, AtCall, [], {}))
    ensures u.transcript == t.transcript.(messages := t.checkpoint.messages) && !u.cancelled && u.spliced == t.spliced
    ensures u.store == t.store && u.issued == t.issued && u.request == t.request
    ensures u.completed == {} && u.checkpoint == t.checkpoint && u.context == Context({}, [c], {})
    ensures u.log == t.log + [ProcessEnded(Unsaved(t, t.checkpoint))] + [BatchOpened]
  {
    hide Reaches, Unsaved, CancelStep, PreserveStep, FinalCheckpoint, RecoverLeaseStep, ResolveStep, ModelTurnStep, TurnCheckpointStep, LoopCheckpointStep, EndBatchStep;
    OneCall(c);
    var s1 := Forget(t, t.checkpoint);
    StopOnwards(s, t, Crash, s1);
    var s2 := ResumeStep(s1, false);
    StopOnwards(s, s1, Resume(false), s2);
    u := StartBatchStep(s2);
    TurnOnwards(s, s2, StartBatch, u);
  }

  /** The events of the first batch, up to the start of the body. */
  function FirstLog(p: Policy): seq<Event> {
    [BatchOpened, Allowed(SomeCall(p), ByMode), BodyStarted(SomeCall(p))]
  }

  lemma CountFirst(p: Policy)
    ensures Lost(FirstLog(p)) == 0 && Starts(FirstLog(p), 0) == 1 && Retries(FirstLog(p), 0) == 0
  {
    assert FirstLog(p) == [] + [BatchOpened] + [Allowed(SomeCall(p), ByMode)] + [BodyStarted(SomeCall(p))];
    Observe([], BatchOpened, 0);
    Observe([BatchOpened], Allowed(SomeCall(p), ByMode), 0);
    Observe([BatchOpened] + [Allowed(SomeCall(p), ByMode)], BodyStarted(SomeCall(p)), 0);
    LostAppend([], BatchOpened);
    LostAppend([BatchOpened], Allowed(SomeCall(p), ByMode));
    LostAppend([BatchOpened] + [Allowed(SomeCall(p), ByMode)], BodyStarted(SomeCall(p)));
  }

  lemma CountReopened(log: seq<Event>, lost: seq<Message>)
    ensures var more := log + [ProcessEnded(lost)] + [BatchOpened];
            Lost(more) == Lost(log) + |lost| && Starts(more, 0) == Starts(log, 0) && Retries(more, 0) == Retries(log, 0)
  {
  }

  /** A tool that reports success under the error code of a cancellation is run again after a
      crash, although its policy is never to replay it and no human asked for it. */
  lemma CancelledSuccessRunsTwice() returns (t: State)
    ensures Reaches(Fresh0(), t) && 0 in t.issued && t.issued[0].policy.Never?
    ensures Starts(t.log, 0) == 2 && Retries(t.log, 0) == 0
  {
    hide Reaches, ResultMessages, ReconcileFoundStep, StartBodyStep, SaveAttemptStep, EndExecutionStep, CollectNextStep, StartExecutionStep, MayRepeat, MayReconcile;
    var s1 := FirstStart(Never);
    NoResultYet(SomeCall(Never));
    var raw := Result(false, CancelledCode, false, Output(""));
    var s2 := EndBodyStep(s1, 0, raw, None);
    RunOnwards(Fresh0(), s1, EndBody(0, raw, None), s2);
    var s3 := Reopening(Fresh0(), s2, SomeCall(Never));
    t := Starting(Fresh0(), s3, Never);
    CountFirst(Never);
    CountReopened(FirstLog(Never), Unsaved(s2, s2.checkpoint));
    Observe(s3.log, Allowed(SomeCall(Never), ByMode), 0);
    Observe(s3.log + [Allowed(SomeCall(Never), ByMode)], BodyStarted(SomeCall(Never)), 0);
  }

  /** The examination of an interrupted `reconcile` call, cut off by another stop. */
  lemma Forgetting() returns (u: State)
    ensures Reaches(Fresh0(), u) && AtSomeCall(u, Reconcile) && !Interrupted(u.store[0])
    ensures Starts(u.log, 0) == 1 && Retries(u.log, 0) == 0
  {
    hide Reaches, ResultMessages, Starts, Retries;
    var c := SomeCall(Reconcile);
    var s1 := FirstStart(Reconcile);
    NoResultYet(c);
    var s2 := Reopening(Fresh0(), s1, c);
    var s3 := Accepting(Fresh0(), s2, Reconcile);
    u := Reopening(Fresh0(), s3, c);
    CountFirst(Reconcile);
    CountReopened(FirstLog(Reconcile), Unsaved(s1, s1.checkpoint));
    CountReopened(s2.log, Unsaved(s3, s3.checkpoint));
  }

  /** A call whose policy is to reconcile is run a second time in a batch that does not take it for
      interrupted, so that its reconciler is never asked whether the first attempt took effect. */
  lemma ReconcileRunsUnasked() returns (t: State)
    ensures Reaches(Fresh0(), t) && 0 in t.issued && t.issued[0].policy.Reconcile?
    ensures Starts(t.log, 0) == 2 && Retries(t.log, 0) == 0
    ensures t.control.Executing? && t.control.exec.recovering == {} && ProgressOf(t, 0) == Some(BodyRunning)
  {
    hide Reaches, ResultMessages, Starts, Retries, Settled, Unrepeatable, Interrupted;
    var c := SomeCall(Reconcile);
    var s := Forgetting();
    t := Starting(Fresh0(), s, Reconcile);
    Observe(s.log, Allowed(c, ByMode), 0);
    Observe(s.log + [Allowed(c, ByMode)], BodyStarted(c), 0);
  }

  function Done(): Result { Result(false, NoCode, false, Output("done")) }

  function DoneMessage(id: nat): Message {
    ToolMessage(id, Some(0), "call", Done())
  }

  lemma Ending() returns (u: State)
    ensures Reaches(Fresh0(), u) && u.transcript == AskedTranscript(SomeCall(Never)) && u.completed == {}
    ensures u.control.Collecting? && u.control.harvest.next == 0 && u.control.harvest.allowed == [SomeCall(Never)]
    ensures u.control.harvest.outcomes == map[0 := Done()] && !u.cancelled
    ensures 0 in u.store && u.store[0].status.Succeeded? && u.store[0].result == Some(Done())
    ensures u.issued == map[0 := SomeCall(Never)] && u.request == Fresh0().request && u.spliced == 0
    ensures u.checkpoint == Checkpoint(Asked(SomeCall(Never)), {}, [SomeCall(Never)], ToolBatchPhase)
    ensures u.log == FirstLog(Never)
  {
    hide Reaches, ReconcileFoundStep, StartBodyStep, SaveAttemptStep, CollectNextStep, StartExecutionStep, MayRepeat, MayReconcile;
    var s1 := FirstStart(Never);
    var s2 := EndBodyStep(s1, 0, Done(), None);
    RunOnwards(Fresh0(), s1, EndBody(0, Done(), None), s2);
    assert s2.control.exec.progress == map[0 := Returned(Done())];
    u := EndExecutionStep(s2);
    RunOnwards(Fresh0(), s2, EndExecution, u);
  }

  /** The body succeeded and its result was appended; no checkpoint holds the message yet. */
  lemma Harvested() returns (u: State)
    ensures Reaches(Fresh0(), u) && u.transcript == Append(AskedTranscript(SomeCall(Never)), DoneMessage(2))
    ensures 0 in u.store && u.store[0].status.Succeeded? && u.store[0].result == Some(Done())
    ensures u.issued == map[0 := SomeCall(Never)] && u.request == Fresh0().request && u.spliced == 0
    ensures u.checkpoint == Checkpoint(Asked(SomeCall(Never)), {}, [SomeCall(Never)], ToolBatchPhase)
    ensures u.log == FirstLog(Never)
  {
    hide Reaches, Append, ReconcileFoundStep, StartBodyStep, SaveAttemptStep, EndBodyStep, EndExecutionStep, StartExecutionStep, MayRepeat, MayReconcile;
    var s1 := Ending();
    u := CollectNextStep(s1);
    RunOnwards(Fresh0(), s1, CollectNext, u);
  }

  lemma {:induction false} RowMessagesAppend(rows: seq<Row>, row: Row)
    ensures RowMessages(rows + [row]) == RowMessages(rows) + [row.message]
  {
    if rows == [] {
      assert RowMessages([row]) == [row.message] + RowMessages([row][1..]);
    } else {
      assert (rows + [row])[1..] == rows[1..] + [row];
      RowMessagesAppend(rows[1..], row);
    }
  }

  lemma TwoRows() returns (t: Transcript)
    ensures t == Append(Append(AskedTranscript(SomeCall(Never)), DoneMessage(2)).(messages := Asked(SomeCall(Never))), DoneMessage(3))
    ensures |t.rows| == 4 && |t.messages| == 3
    ensures |ResultsFor(RowMessages(t.rows), 0)| == 2
  {
    var first := Append(AskedTranscript(SomeCall(Never)), DoneMessage(2));
    t := Append(first.(messages := Asked(SomeCall(Never))), DoneMessage(3));
    var rows := AskedTranscript(SomeCall(Never)).rows + [Row(3, DoneMessage(2))];
    assert t.rows == rows + [Row(3, DoneMessage(3))];
    RowMessagesAppend(rows, Row(3, DoneMessage(3)));
    RowMessagesAppend(AskedTranscript(SomeCall(Never)).rows, Row(3, DoneMessage(2)));
    hide RowMessages;
    var before := RowMessages(AskedTranscript(SomeCall(Never)).rows);
    ResultsAppend(before, DoneMessage(2), SomeCall(Never));
    ResultsAppend(before + [DoneMessage(2)], DoneMessage(3), SomeCall(Never));
    AskedRows();
  }

  lemma AskedRows()
    ensures ResultsFor(RowMessages(AskedTranscript(SomeCall(Never)).rows), 0) == []
  {
  }

  /** The resumed run replays the stored result, so that the rows outgrow the list in memory. */
  lemma Replayed0(rows: Transcript) returns (u: State)
    requires rows == Append(Append(AskedTranscript(SomeCall(Never)), DoneMessage(2)).(messages := Asked(SomeCall(Never))), DoneMessage(3))
    ensures Reaches(Fresh0(), u) && u.transcript == rows && u.spliced == 0 && Lost(u.log) == 1
    ensures 0 in u.issued && u.issued[0].known && u.checkpoint.messages == Asked(SomeCall(Never))
  {
    hide Reaches, InsertRow, Lost, Starts, Retries, UnknownStep, ReceiveStep, UnclearStep, RejectStep, AcceptStep, AppendEarlyStep, ApplyPolicyStep, AskStep, AnswerStep;
    var s1 := Harvested();
    NoResultYet(SomeCall(Never));
    var s2 := Reopening(Fresh0(), s1, SomeCall(Never));
    CountFirst(Never);
    CountReopened(FirstLog(Never), Unsaved(s1, s1.checkpoint));
    assert |Unsaved(s1, s1.checkpoint)| == 1;
    u := ReplayStep(s2);
    GateOnwards(Fresh0(), s2, Replay, u);
  }

  /** A crash between the saving of a result message and the checkpoint of its batch: the resumed
      run replays the result, the rows become the longest list, and the next preserved checkpoint
      holds the result of the call twice. */
  lemma LostMessageDoublesResult() returns (t: State)
    ensures Reaches(Fresh0(), t) && 0 in t.issued && t.issued[0].known
    ensures Lost(t.log) == 1 && t.spliced == 0
    ensures |ResultsFor(t.checkpoint.messages, 0)| == 2
  {
    hide Reaches, Append, RowMessages, ResultsFor, Lost, Unfinished, CancelStep, FinalCheckpoint, RecoverLeaseStep, ResolveStep, ResumeStep;
    var rows := TwoRows();
    var s := Replayed0(rows);
    t := PreserveStep(s);
    StopOnwards(Fresh0(), s, PreserveCheckpoint, t);
  }

  function UnknownCall(): Call {
    Call(0, "call", false, true, Destructive, Never, false, false, "")
  }

  lemma Refusing(s: State, t: State) returns (u: State)
    requires Reaches(s, t) && t.control == Gating(GateState([UnknownCall()], 0, AtCall, [], {}))
    ensures Reaches(s, u) && u.transcript == AppendResult(t.transcript, UnknownCall(), UnknownToolResult())
    ensures u == t.(control := u.control, store := u.store, transcript := u.transcript, completed := u.completed)
  {
    hide Reaches, Append, ReceiveStep, ReplayStep, UnclearStep, RejectStep, AcceptStep, ApplyPolicyStep, AskStep, AnswerStep;
    var s1 := UnknownStep(t);
    GateOnwards(s, t, Unknown, s1);
    u := AppendEarlyStep(s1);
    GateOnwards(s, s1, AppendEarly, u);
  }

  function Refusal(id: nat): Message {
    ToolMessage(id, Some(0), "call", UnknownToolResult())
  }

  /** The refusal is in a checkpoint that does not count the call as completed. */
  lemma RefusedAndPreserved() returns (u: State)
    ensures Reaches(Fresh0(), u) && u.checkpoint == Checkpoint(Asked(UnknownCall()) + [Refusal(2)], {}, [UnknownCall()], ToolBatchPhase)
    ensures u.transcript.messages == u.checkpoint.messages && u.transcript.nextId == 3
    ensures u.issued == map[0 := UnknownCall()] && u.log == [BatchOpened]
  {
    hide Reaches, CancelStep, FinalCheckpoint, RecoverLeaseStep, ResolveStep, ResumeStep;
    var s1 := Opening(UnknownCall());
    var s2 := Refusing(Fresh0(), s1);
    u := PreserveStep(s2);
    StopOnwards(Fresh0(), s2, PreserveCheckpoint, u);
  }

  /** A call to an unknown tool gets a second result message when a checkpoint is preserved in the
      middle of its batch and the run is resumed, although no message was lost. */
  lemma UnknownToolDoublesResult() returns (t: State)
    ensures Reaches(Fresh0(), t) && 0 in t.issued && !t.issued[0].known
    ensures Lost(t.log) == 0 && |ResultsFor(t.transcript.messages, 0)| == 2
  {
    hide Reaches, ResultsFor, Lost, Starts, Retries;
    var c := UnknownCall();
    var s1 := RefusedAndPreserved();
    var s2 := Reopening(Fresh0(), s1, c);
    t := Refusing(Fresh0(), s2);
    NothingLost();
    CountReopened([BatchOpened], []);
    TwoRefusals();
    assert t.transcript.messages == Asked(c) + [Refusal(2)] + [Refusal(3)];
  }

  lemma NothingLost()
    ensures Lost([BatchOpened]) == 0
  {
  }

  lemma TwoRefusals()
    ensures |ResultsFor(Asked(UnknownCall()) + [Refusal(2)] + [Refusal(3)], 0)| == 2
  {
    NoneNamed(Asked(UnknownCall()), 0);
    ResultsAppend(Asked(UnknownCall()), Refusal(2), UnknownCall());
    ResultsAppend(Asked(UnknownCall()) + [Refusal(2)], Refusal(3), UnknownCall());
  }
}
