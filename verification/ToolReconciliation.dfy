/** When the reconciler of an interrupted call is asked before its body may start again.

    Examining a call whose record was left `running` or `cancelled` marks it in the memory of
    the batch, and overwrites the status.  While the batch lasts the mark does its work; a
    second stop before the reconciler answers loses it for good. */
module ToolReconciliation {
  import opened Common
  import opened ToolRecovery
  import opened ToolSafety

  /** The calls that the batch in progress found interrupted. */
  function Marked(s: State): set<nat> {
    match s.control
    case Gating(g) => g.recovering
    case Executing(e) => e.recovering
    case _ => {}
  }

  predicate Unstarted(status: Option<Status>) {
    BeforeStart(status) || status == Some(Failed)
  }

  predicate Asks(a: Action, i: nat) {
    a.Run? && (a.run.ReconcileFound? || a.run.ReconcileNothing?) && a.run.inv == i
  }

  predicate Attempts(a: Action, i: nat) {
    a == Run(SaveAttempt(i))
  }

  predicate OpensBatch(a: Action) {
    a == Turn(StartBatch)
  }

  // ---------------------------------------------------------------- while the batch lasts

  /** No attempt of the call is under way in the batch in progress. */
  predicate Owed(s: State, i: nat) {
    && i in s.issued && s.issued[i].policy.Reconcile?
    && (s.control.Gating? ==> i in s.control.gate.recovering)
    && (s.control.Executing? ==>
          i in s.control.exec.recovering
          && (i in s.control.exec.progress ==> s.control.exec.progress[i].Queued? || s.control.exec.progress[i].Returned?))
  }

  ghost predicate StaysOwed(s: State, t: State, i: nat) {
    Owed(t, i) && Starts(t.log, i) == Starts(s.log, i)
  }

  /** The verdict on a call marks nothing, and leaves its record unstarted or failed. */
  lemma PolicyMarksNothing(s: State)
    requires AtStage(s, AtPolicy)
    ensures ApplyPolicyStep(s).control.Gating? && Marked(ApplyPolicyStep(s)) == Marked(s)
    ensures Unstarted(StatusOf(ApplyPolicyStep(s), Current(s).inv))
  {
    hide PolicyVerdict;
  }

  lemma AnswerMarksNothing(s: State, decision: Decision)
    requires AtStage(s, AwaitingAnswer)
    ensures AnswerStep(s, decision).control.Gating? && Marked(AnswerStep(s, decision)) == Marked(s)
    ensures Unstarted(StatusOf(AnswerStep(s, decision), Current(s).inv))
  {
    hide NeedsConfirmation;
  }

  /** The call that a gating action marks: the one it lets pass or rejects, if that was interrupted. */
  function NewMark(s: State, a: GateAction): set<nat>
    requires GateEnabled(s, a)
  {
    if (a.Accept? || a.Reject?) && Interrupted(CurrentRecord(s)) then {Current(s).inv} else {}
  }

  lemma MarksAfter(s: State, a: GateAction)
    requires GateEnabled(s, a)
    ensures GateStep(s, a).control.Gating? && Marked(GateStep(s, a)) == Marked(s) + NewMark(s, a)
  {
    hide ApplyPolicyStep, AnswerStep, DropResults, AppendResult, Settled, Unrepeatable, Replayed, Unstarted, Interrupted;
    match a
    case ApplyPolicy => PolicyMarksNothing(s);
    case Answer(decision) => AnswerMarksNothing(s, decision);
    case _ =>
  }

  lemma SwitchKeepsOwed(s: State, a: RunAction, i: nat)
    requires RunEnabled(s, a) && Owed(s, i)
    requires a.StartExecution? || a.EndExecution? || a.CollectNext?
    ensures StaysOwed(s, RunStep(s, a), i)
  {
    hide InsertRow, Append, Outcomes, IssuedBy, Incomplete, Starts;
  }

  lemma RunKeepsOwed(s: State, a: RunAction, i: nat)
    requires Coherent(s) && RunEnabled(s, a) && Owed(s, i) && !Asks(Run(a), i)
    ensures StaysOwed(s, RunStep(s, a), i)
  {
    hide Settle, TerminalStatus, TerminalResult, Uncertain, Coherent, Starts, StartExecutionStep, EndExecutionStep, CollectNextStep;
    if a.StartExecution? || a.EndExecution? || a.CollectNext? {
      SwitchKeepsOwed(s, a, i);
    } else if a.StartBody? {
      OtherBodyStarts(s, a.inv, i);
    }
  }

  lemma TurnKeepsOwed(s: State, a: TurnAction, i: nat)
    requires Coherent(s) && TurnEnabled(s, a) && Owed(s, i) && !OpensBatch(Turn(a))
    ensures StaysOwed(s, TurnStep(s, a), i)
  {
    if a.ModelTurn? { FreshCalls(s, a.calls); }
    hide Coherent, Starts, InsertRow, Append, IssuedBy, MayTakeTurn;
  }

  lemma StopKeepsOwed(s: State, a: StopAction, i: nat)
    requires StopEnabled(s, a) && Owed(s, i)
    ensures StaysOwed(s, StopStep(s, a), i)
  {
    match a
    case Finish(resumable) => Observe(s.log, ProcessEnded(Unsaved(s, FinalCheckpoint(s, resumable))), i);
    case Crash => Observe(s.log, ProcessEnded(Unsaved(s, s.checkpoint)), i);
    case ResolveByHuman(j, human) => Observe(s.log, HumanResolved(j, human), i);
    case _ =>
  }

  lemma StepKeepsOwed(s: State, a: Action, i: nat)
    requires Coherent(s) && Enabled(s, a) && Owed(s, i) && !Asks(a, i) && !OpensBatch(a)
    ensures StaysOwed(s, Step(s, a), i)
  {
    hide Coherent, Starts, GateStep, RunStep, TurnStep, StopStep, GateEnabled, RunEnabled, TurnEnabled, StopEnabled;
    match a
    case Gate(g) =>
      GateEffects(s, g);
      MarksAfter(s, g);
      SilentLog(s.log, GateStep(s, g).log, i);
    case Run(r) => RunKeepsOwed(s, r, i);
    case Turn(t) => TurnKeepsOwed(s, t, i);
    case Stop(x) => StopKeepsOwed(s, x, i);
  }

  lemma {:induction false} OwedThroughout(states: seq<State>, actions: seq<Action>, from: nat, k: nat, i: nat)
    requires IsRun(states, actions) && Coherent(states[0]) && from <= k < |states| && Owed(states[from], i)
    requires forall j :: from <= j < k ==> !Asks(actions[j], i) && !OpensBatch(actions[j])
    ensures StaysOwed(states[from], states[k], i)
  {
    hide Step, Enabled, Coherent, Owed, Asks, OpensBatch;
    if k > from {
      OwedThroughout(states, actions, from, k - 1, i);
      CoherentThroughout(states, actions, k - 1);
      StepKeepsOwed(states[k - 1], actions[k - 1], i);
      assert states[k - 1 + 1] == Step(states[k - 1], actions[k - 1]);
    }
  }

  /** An interrupted call under the `reconcile` policy that a batch lets pass: over any run, until
      its reconciler is asked or another batch is opened, its body is not started. */
  lemma ReconcilerComesFirst(states: seq<State>, actions: seq<Action>, from: nat, k: nat, i: nat)
    requires IsRun(states, actions) && Coherent(states[0]) && from < k < |states|
    requires actions[from] == Gate(Accept) && AtRunnableCall(states[from]) && Current(states[from]).inv == i
    requires Current(states[from]).policy.Reconcile? && Interrupted(CurrentRecord(states[from]))
    requires forall j :: from < j < k ==> !Asks(actions[j], i) && !OpensBatch(actions[j])
    ensures Starts(states[k].log, i) == Starts(states[from].log, i)
  {
    hide Starts, Step, Enabled;
    CoherentThroughout(states, actions, from);
    AcceptMarks(states[from], i);
    assert states[from + 1] == Step(states[from], actions[from]);
    OwedThroughout(states, actions, from + 1, k, i);
  }

  lemma AcceptMarks(s: State, i: nat)
    requires Coherent(s) && AtRunnableCall(s) && Current(s).inv == i && Enabled(s, Gate(Accept))
    requires Current(s).policy.Reconcile? && Interrupted(CurrentRecord(s))
    ensures StaysOwed(s, Step(s, Gate(Accept)), i)
  {
    hide Starts, DropResults, Settled, Unrepeatable;
  }

  // ---------------------------------------------------------------- after a second stop

  /** The gate of the batch in progress let the call pass, and nothing was done for it yet. */
  predicate PastGate(s: State, i: nat) {
    || (InCall(s) && Current(s).inv == i && (s.control.gate.stage.AtPolicy? || s.control.gate.stage.AskSaved? || s.control.gate.stage.AwaitingAnswer?))
    || (s.control.Gating? && exists k :: 0 <= k < |s.control.gate.allowed| && s.control.gate.allowed[k].inv == i)
    || ProgressOf(s, i) == Some(Queued)
  }

  /** Neither the status of the record nor the batch in progress tells that an attempt was made. */
  predicate Forgotten(s: State, i: nat) {
    i !in Marked(s) && Unstarted(StatusOf(s, i))
  }

  ghost predicate StaysForgotten(s: State, t: State, i: nat) {
    Forgotten(t, i) && Starts(t.log, i) == Starts(s.log, i)
  }

  /** A failed call has a result to replay, and one that was not started stays so. */
  lemma GateKeepsUnstarted(s: State, a: GateAction, i: nat)
    requires Coherent(s) && GateEnabled(s, a) && Current(s).inv == i
    requires Unstarted(StatusOf(s, i))
    ensures Unstarted(StatusOf(GateStep(s, a), i))
  {
    hide ApplyPolicyStep, AnswerStep, ControlFits, Registered, DropResults, AppendResult, Replayed;
    match a
    case ApplyPolicy => PolicyMarksNothing(s);
    case Answer(decision) => AnswerMarksNothing(s, decision);
    case _ =>
  }

  lemma GateKeepsForgotten(s: State, a: GateAction, i: nat)
    requires Coherent(s) && GateEnabled(s, a) && Forgotten(s, i)
    ensures Forgotten(GateStep(s, a), i)
  {
    hide GateStep, Coherent, GateMove, Settled, Unrepeatable;
    GateEffects(s, a);
    if Current(s).inv == i { GateKeepsUnstarted(s, a, i); }
    MarksAfter(s, a);
  }

  /** Nothing of a call in this state is under way. */
  lemma ForgottenIsIdle(s: State, i: nat)
    requires Coherent(s) && Forgotten(s, i) && ProgressOf(s, i).Some?
    ensures !ProgressOf(s, i).value.AttemptSaved? && !ProgressOf(s, i).value.BodyRunning? && !MustReconcile(s, i)
  {
    hide RecordsFit, Registered;
  }

  lemma SwitchKeepsForgotten(s: State, a: RunAction, i: nat)
    requires RunEnabled(s, a) && Forgotten(s, i)
    requires a.StartExecution? || a.EndExecution? || a.CollectNext?
    ensures StaysForgotten(s, RunStep(s, a), i)
  {
    hide InsertRow, Append, Outcomes, IssuedBy, Incomplete, Starts;
  }

  lemma RunKeepsForgotten(s: State, a: RunAction, i: nat)
    requires Coherent(s) && RunEnabled(s, a) && Forgotten(s, i) && !Attempts(Run(a), i)
    ensures StaysForgotten(s, RunStep(s, a), i)
  {
    hide Settle, TerminalStatus, TerminalResult, Uncertain, Coherent, Starts, MustReconcile, StartExecutionStep, EndExecutionStep, CollectNextStep;
    if ProgressOf(s, i).Some? { ForgottenIsIdle(s, i); }
    if a.StartExecution? || a.EndExecution? || a.CollectNext? {
      SwitchKeepsForgotten(s, a, i);
    } else if a.StartBody? {
      OtherBodyStarts(s, a.inv, i);
    }
  }

  lemma TurnKeepsForgotten(s: State, a: TurnAction, i: nat)
    requires TurnEnabled(s, a) && Forgotten(s, i)
    ensures StaysForgotten(s, TurnStep(s, a), i)
  {
    Observe(s.log, BatchOpened, i);
  }

  /** A recovered lease turns only running records around, and a human only indeterminate ones. */
  lemma RecoveryKeepsForgotten(s: State, a: StopAction, i: nat)
    requires StopEnabled(s, a) && Forgotten(s, i) && (a.RecoverLease? || a.ResolveByHuman?)
    ensures StaysForgotten(s, StopStep(s, a), i)
  {
    hide Starts;
    if a.ResolveByHuman? { Observe(s.log, HumanResolved(a.inv, a.human), i); }
  }

  /** A stop leaves the record alone and ends the batch. */
  lemma EndKeepsForgotten(s: State, cp: Checkpoint, i: nat)
    requires Forgotten(s, i)
    ensures StaysForgotten(s, Forget(s, cp), i)
  {
    hide Starts, Unsaved;
    Observe(s.log, ProcessEnded(Unsaved(s, cp)), i);
  }

  lemma StopKeepsForgotten(s: State, a: StopAction, i: nat)
    requires StopEnabled(s, a) && Forgotten(s, i)
    ensures StaysForgotten(s, StopStep(s, a), i)
  {
    hide Starts, Forget, FinalCheckpoint, Preserved, RecoverLeaseStep, ResolveStep, Append, Unfinished, BeforeStart;
    match a
    case Finish(resumable) => EndKeepsForgotten(s, FinalCheckpoint(s, resumable), i);
    case Crash => EndKeepsForgotten(s, s.checkpoint, i);
    case RecoverLease => RecoveryKeepsForgotten(s, a, i);
    case ResolveByHuman(_, _) => RecoveryKeepsForgotten(s, a, i);
    case _ =>
  }

  lemma StepKeepsForgotten(s: State, a: Action, i: nat)
    requires Coherent(s) && Enabled(s, a) && Forgotten(s, i) && !Attempts(a, i)
    ensures StaysForgotten(s, Step(s, a), i)
  {
    hide Coherent, Starts, GateStep, RunStep, TurnStep, StopStep, GateEnabled, RunEnabled, TurnEnabled, StopEnabled;
    match a
    case Gate(g) =>
      GateEffects(s, g);
      GateKeepsForgotten(s, g, i);
      SilentLog(s.log, GateStep(s, g).log, i);
    case Run(r) => RunKeepsForgotten(s, r, i);
    case Turn(t) => TurnKeepsForgotten(s, t, i);
    case Stop(x) => StopKeepsForgotten(s, x, i);
  }

  /** Over any run, once the mark is lost the reconciler is not asked before the next attempt. */
  lemma {:induction false} ForgottenUntilAttempted(states: seq<State>, actions: seq<Action>, from: nat, k: nat, i: nat)
    requires IsRun(states, actions) && Coherent(states[0]) && from <= k < |states| && Forgotten(states[from], i)
    requires forall j :: from <= j < k ==> !Attempts(actions[j], i)
    ensures StaysForgotten(states[from], states[k], i) && !MayReconcile(states[k], i)
  {
    hide Step, Enabled, Coherent, Attempts;
    if k > from {
      ForgottenUntilAttempted(states, actions, from, k - 1, i);
      CoherentThroughout(states, actions, k - 1);
      StepKeepsForgotten(states[k - 1], actions[k - 1], i);
      assert states[k - 1 + 1] == Step(states[k - 1], actions[k - 1]);
    }
  }

  // ---------------------------------------------------------------- how the mark is lost

  predicate InBatch(s: State) {
    s.control.Gating? || s.control.Executing?
  }

  lemma PastGateIsUnstarted(s: State, i: nat)
    requires Coherent(s) && PastGate(s, i)
    ensures Unstarted(StatusOf(s, i))
  {
    hide RecordsFit, Registered;
  }

  /** A crash anywhere between the gate and the reconciler's answer loses the mark. */
  lemma SecondStopForgets(s: State, i: nat)
    requires Coherent(s) && PastGate(s, i)
    ensures Forgotten(StopStep(s, Crash), i)
  {
    PastGateIsUnstarted(s, i);
    hide Coherent, Unsaved, Unstarted;
  }

  /** Nothing but the reconciler's answer and an attempt moves a record past the start. */
  lemma RunKeepsUnstarted(s: State, a: RunAction, i: nat)
    requires Coherent(s) && RunEnabled(s, a) && Unstarted(StatusOf(s, i)) && !Asks(Run(a), i) && !Attempts(Run(a), i)
    ensures Unstarted(StatusOf(RunStep(s, a), i))
  {
    hide InsertRow, Append, Outcomes, IssuedBy, Settle, TerminalStatus, TerminalResult, Uncertain, RecordsFit, Registered, Incomplete;
  }

  lemma StepKeepsUnstarted(s: State, a: Action, i: nat)
    requires Coherent(s) && Enabled(s, a) && Unstarted(StatusOf(s, i)) && !Asks(a, i) && !Attempts(a, i)
    ensures Unstarted(StatusOf(Step(s, a), i))
  {
    hide Coherent, GateStep, RunStep, GateEnabled, RunEnabled, Append, Unfinished, Unsaved, FinalCheckpoint, Preserved;
    match a
    case Gate(g) =>
      GateEffects(s, g);
      if Current(s).inv == i { GateKeepsUnstarted(s, g, i); }
    case Run(r) => RunKeepsUnstarted(s, r, i);
    case _ =>
  }

  lemma {:induction false} UnstartedThroughout(states: seq<State>, actions: seq<Action>, from: nat, k: nat, i: nat)
    requires IsRun(states, actions) && Coherent(states[0]) && from <= k < |states| && Unstarted(StatusOf(states[from], i))
    requires forall j :: from <= j < k ==> !Asks(actions[j], i) && !Attempts(actions[j], i)
    ensures Unstarted(StatusOf(states[k], i))
  {
    hide Step, Enabled, Coherent, Asks, Attempts, Unstarted;
    if k > from {
      UnstartedThroughout(states, actions, from, k - 1, i);
      CoherentThroughout(states, actions, k - 1);
      StepKeepsUnstarted(states[k - 1], actions[k - 1], i);
      assert states[k - 1 + 1] == Step(states[k - 1], actions[k - 1]);
    }
  }

  /** Over every run: a call that the gate let pass, whose reconciler was not asked and of which no
      attempt was saved, is forgotten as soon as its batch is over: by a crash, by a batch that is
      abandoned, or by a cancellation that has the call skipped. */
  lemma UnaskedIsForgotten(states: seq<State>, actions: seq<Action>, from: nat, k: nat, i: nat)
    requires IsRun(states, actions) && Coherent(states[0]) && from <= k < |states|
    requires PastGate(states[from], i) && !InBatch(states[k])
    requires forall j :: from <= j < k ==> !Asks(actions[j], i) && !Attempts(actions[j], i)
    ensures Forgotten(states[k], i)
  {
    hide Step, Enabled, Coherent, Asks, Attempts, Unstarted, PastGate;
    CoherentThroughout(states, actions, from);
    PastGateIsUnstarted(states[from], i);
    UnstartedThroughout(states, actions, from, k, i);
  }

  /** The path of a cancellation: the call is skipped and the batch harvested. */
  lemma SkippingForgets(s: State, i: nat)
    requires Coherent(s) && RunEnabled(s, SkipCancelled(i)) && AllReturned(RunStep(s, SkipCancelled(i)).control.exec.progress)
    ensures var t := RunStep(s, SkipCancelled(i)); RunEnabled(t, EndExecution) && Forgotten(RunStep(t, EndExecution), i)
  {
    hide Registered;
  }
}
