/** Safety of tool execution over whole runs: how often a body may start, that an
    unclear outcome stays with the human, and what every started body was allowed by. */
module ToolSafety {
  import opened Common
  import opened ToolRecovery

  // ---------------------------------------------------------------- observers

  /** How many times the body of an invocation was started. */
  function Starts(log: seq<Event>, inv: nat): nat {
    if log == [] then 0
    else
      var last := log[|log| - 1];
      Starts(log[..|log| - 1], inv) + if last.BodyStarted? && last.call.inv == inv then 1 else 0
  }

  /** How many times a human decided to retry an invocation. */
  function Retries(log: seq<Event>, inv: nat): nat {
    if log == [] then 0
    else Retries(log[..|log| - 1], inv) + if log[|log| - 1] == HumanResolved(inv, Retry) then 1 else 0
  }

  lemma Observe(log: seq<Event>, e: Event, inv: nat)
    ensures Starts(log + [e], inv) == Starts(log, inv) + (if e.BodyStarted? && e.call.inv == inv then 1 else 0)
    ensures Retries(log + [e], inv) == Retries(log, inv) + (if e == HumanResolved(inv, Retry) then 1 else 0)
  {
  }

  // ---------------------------------------------------------------- control invariant

  predicate Registered(issued: map<nat, Call>, calls: seq<Call>) {
    DistinctCalls(calls)
    && forall k :: 0 <= k < |calls| ==> calls[k].inv in issued && issued[calls[k].inv] == calls[k]
  }

  predicate Ended(status: Status) {
    status.Succeeded? || status.Failed? || status.Cancelled? || status.Indeterminate?
  }

  /** The record carries the returned result, or nothing was started because of a cancellation. */
  predicate OutcomeFits(record: Record, cancelled: bool, r: Result) {
    || (Ended(record.status) && record.result == Some(r))
    || (record.status.Approved? && cancelled && r.isError)
  }

  /** What the record of an invocation says while its execution is at a given point. */
  predicate ProgressFits(record: Record, cancelled: bool, c: Call, p: Progress) {
    match p
    case Queued => record.status.Approved?
    case Attempting => record.status.Approved? || (record.status.Running? && c.policy.Safe?)
    case AttemptSaved => record.status.Running?
    case BodyRunning => record.status.Running?
    case Returned(r) => OutcomeFits(record, cancelled, r)
  }

  predicate StageFits(store: map<nat, Record>, c: Call, stage: Stage) {
    match stage
    case AtCall => true
    case EarlyResult(r) => c.inv in store && store[c.inv].status.Failed? && store[c.inv].result == Some(r)
    case AtPolicy => c.known && c.inv in store && store[c.inv].status.Validated?
    case AskSaved => c.known && c.inv in store && store[c.inv].status.WaitingApproval?
    case AwaitingAnswer => c.known && c.inv in store && store[c.inv].status.WaitingApproval?
  }

  predicate ReadyToRun(store: map<nat, Record>, completed: set<nat>, c: Call) {
    c.known && c.inv !in completed && c.inv in store && store[c.inv].status.Approved?
  }

  predicate GateFits(issued: map<nat, Call>, store: map<nat, Record>, completed: set<nat>, g: Gate) {
    && g.pos <= |g.pending|
    && Registered(issued, g.pending) && Registered(issued, g.allowed)
    && (forall k :: g.pos <= k < |g.pending| ==> g.pending[k].inv !in completed)
    && (forall k :: 0 <= k < |g.allowed| ==> ReadyToRun(store, completed, g.allowed[k]))
    && (forall j, k :: 0 <= j < |g.allowed| && g.pos <= k < |g.pending| ==> g.allowed[j].inv != g.pending[k].inv)
    && (g.pos < |g.pending| ==> StageFits(store, g.pending[g.pos], g.stage))
  }

  predicate ExecutionFits(issued: map<nat, Call>, store: map<nat, Record>, completed: set<nat>, cancelled: bool, e: Execution) {
    && Registered(issued, e.pending) && Registered(issued, e.allowed)
    && (forall k :: 0 <= k < |e.allowed| ==> e.allowed[k].inv in e.progress)
    && (forall i :: i in e.progress ==>
          i in issued && i in store && i !in completed && issued[i].known
          && ProgressFits(store[i], cancelled, issued[i], e.progress[i]))
  }

  predicate HarvestFits(issued: map<nat, Call>, store: map<nat, Record>, completed: set<nat>, cancelled: bool, h: Harvest) {
    && h.next <= |h.allowed|
    && Registered(issued, h.pending) && Registered(issued, h.allowed)
    && (forall k :: h.next <= k < |h.allowed| ==> HarvestReady(store, completed, cancelled, h.outcomes, h.allowed[k]))
  }

  predicate HarvestReady(store: map<nat, Record>, completed: set<nat>, cancelled: bool, outcomes: map<nat, Result>, c: Call) {
    c.known && c.inv !in completed && c.inv in outcomes && c.inv in store
    && OutcomeFits(store[c.inv], cancelled, outcomes[c.inv])
  }

  predicate ControlFits(s: State) {
    match s.control
    case Inactive => true
    case Looping => true
    case TurnSaved(calls) => Registered(s.issued, calls)
    case BatchReady(calls) => Registered(s.issued, calls)
    case Gating(g) => GateFits(s.issued, s.store, s.completed, g)
    case Executing(e) => ExecutionFits(s.issued, s.store, s.completed, s.cancelled, e)
    case Collecting(h) => HarvestFits(s.issued, s.store, s.completed, s.cancelled, h)
  }

  /** Records belong to issued calls, and the record of a call to an unknown tool never changes. */
  predicate RecordsFit(issued: map<nat, Call>, store: map<nat, Record>) {
    && (forall i :: i in issued ==> issued[i].inv == i)
    && (forall i :: i in store ==> i in issued)
    && (forall i :: i in store && !issued[i].known ==>
          store[i].status.Failed? && store[i].result == Some(UnknownToolResult()))
    && (forall i :: i in store ==> HoldsResult(store[i]))
  }

  /** A record that counts as finished has something to replay. */
  predicate HoldsResult(record: Record) {
    record.status.Succeeded? || record.status.Failed? || record.status.Cancelled? ==> record.result.Some?
  }

  predicate Coherent(s: State) {
    && RecordsFit(s.issued, s.store) && ControlFits(s)
    && Registered(s.issued, s.checkpoint.pending) && Registered(s.issued, s.context.pending)
  }

  lemma UnfinishedRegistered(issued: map<nat, Call>, calls: seq<Call>, completed: set<nat>)
    requires Registered(issued, calls)
    ensures Registered(issued, Unfinished(calls, completed))
    ensures forall k :: 0 <= k < |Unfinished(calls, completed)| ==> Unfinished(calls, completed)[k].inv !in completed
  {
  }

  lemma FreshCalls(s: State, calls: seq<Call>)
    requires MayTakeTurn(s, calls)
    ensures forall i :: i in IssuedBy(calls) ==> i !in s.issued && i !in s.store
  {
  }

  lemma IssuedRegistered(calls: seq<Call>)
    requires DistinctCalls(calls)
    ensures Registered(IssuedBy(calls), calls)
  {
  }

  /** What fresh calls add to the register keeps what is registered already. */
  lemma RegisterTurn(s: State, calls: seq<Call>)
    requires RecordsFit(s.issued, s.store) && MayTakeTurn(s, calls)
    ensures var issued := s.issued + IssuedBy(calls); RecordsFit(issued, s.store) && Registered(issued, calls)
    ensures forall i :: i in s.issued ==> i !in IssuedBy(calls)
  {
    FreshCalls(s, calls);
    IssuedRegistered(calls);
    hide DistinctCalls, HoldsResult, Fresh, MayTakeTurn;
  }

  lemma CoherentModelTurn(s: State, calls: seq<Call>)
    requires Coherent(s) && MayTakeTurn(s, calls)
    ensures Coherent(ModelTurnStep(s, calls))
  {
    hide RecordsFit, MayTakeTurn, IssuedBy, Append, GateFits, ExecutionFits, HarvestFits, DistinctCalls;
    RegisterTurn(s, calls);
  }

  /** Saving a record of the call under examination disturbs no other call of the batch. */
  lemma SavingCurrent(issued: map<nat, Call>, store: map<nat, Record>, completed: set<nat>, g: Gate, record: Record, stage: Stage)
    requires GateFits(issued, store, completed, g) && RecordsFit(issued, store) && g.pos < |g.pending|
    requires g.pending[g.pos].known || (record.status.Failed? && record.result == Some(UnknownToolResult()))
    requires HoldsResult(record)
    requires StageFits(store[g.pending[g.pos].inv := record], g.pending[g.pos], stage)
    ensures GateFits(issued, store[g.pending[g.pos].inv := record], completed, g.(stage := stage))
    ensures RecordsFit(issued, store[g.pending[g.pos].inv := record])
  {
  }

  lemma CurrentDone(issued: map<nat, Call>, store: map<nat, Record>, completed: set<nat>, g: Gate, done: set<nat>)
    requires GateFits(issued, store, completed, g) && g.pos < |g.pending|
    requires done <= {g.pending[g.pos].inv}
    ensures GateFits(issued, store, completed + done, g.(pos := g.pos + 1, stage := AtCall))
  {
  }

  lemma CoherentUnknown(s: State)
    requires Coherent(s) && AtStage(s, AtCall) && !Current(s).known
    ensures Coherent(UnknownStep(s))
  {
    var r := UnknownToolResult();
    SavingCurrent(s.issued, s.store, s.completed, s.control.gate, Record(Failed, Some(r), 0), EarlyResult(r));
  }

  lemma CoherentReceive(s: State)
    requires Coherent(s) && AtKnownCall(s)
    ensures Coherent(ReceiveStep(s))
  {
  }

  lemma CoherentReplay(s: State)
    requires Coherent(s) && AtStoredCall(s) && Settled(CurrentRecord(s))
    ensures Coherent(ReplayStep(s))
  {
  }

  lemma CoherentUnclear(s: State)
    requires Coherent(s) && AtStoredCall(s)
    ensures Coherent(UnclearStep(s))
  {
  }

  lemma CoherentRecover(s: State)
    requires Coherent(s) && AtStage(s, AtCall)
    ensures Coherent(Recover(s, Current(s))) && AtStage(Recover(s, Current(s)), AtCall)
    ensures Current(Recover(s, Current(s))) == Current(s)
    ensures Recover(s, Current(s)).store == s.store && Recover(s, Current(s)).completed == s.completed
  {
  }

  lemma CoherentFailEarly(s: State, c: Call, r: Result)
    requires Coherent(s) && InCall(s) && c == Current(s) && c.known
    ensures Coherent(FailEarly(s, c, r))
  {
    SavingCurrent(s.issued, s.store, s.completed, s.control.gate,
                  RecordOf(s, c.inv).(status := Failed, result := Some(r)), EarlyResult(r));
  }

  lemma CoherentReject(s: State)
    requires Coherent(s) && AtStoredCall(s)
    ensures Coherent(RejectStep(s))
  {
    CoherentRecover(s);
    CoherentFailEarly(Recover(s, Current(s)), Current(s), InvalidArgumentsResult());
  }

  lemma CoherentAccept(s: State)
    requires Coherent(s) && AtStoredCall(s)
    ensures Coherent(AcceptStep(s))
  {
    CoherentRecover(s);
    var t := Recover(s, Current(s));
    SavingCurrent(t.issued, t.store, t.completed, t.control.gate, RecordOf(t, Current(s).inv).(status := Validated), AtPolicy);
  }

  lemma CoherentAppendEarly(s: State)
    requires Coherent(s) && AtEarlyResult(s)
    ensures Coherent(AppendEarlyStep(s))
  {
  }

  /** An approved call joins the allowed ones. */
  lemma AllowedGrows(issued: map<nat, Call>, store: map<nat, Record>, completed: set<nat>, g: Gate, c: Call)
    requires GateFits(issued, store, completed, g) && g.stage.AtCall? && ReadyToRun(store, completed, c)
    requires c.inv in issued && issued[c.inv] == c
    requires forall k :: 0 <= k < |g.allowed| ==> g.allowed[k].inv != c.inv
    requires forall k :: g.pos <= k < |g.pending| ==> g.pending[k].inv != c.inv
    ensures GateFits(issued, store, completed, g.(allowed := g.allowed + [c]))
  {
    hide ReadyToRun;
  }

  /** The call under examination stands neither among the allowed nor among those to come. */
  lemma CurrentIsAlone(issued: map<nat, Call>, store: map<nat, Record>, completed: set<nat>, g: Gate)
    requires GateFits(issued, store, completed, g) && g.pos < |g.pending|
    ensures var c := g.pending[g.pos];
            && c.inv !in completed && c.inv in issued && issued[c.inv] == c
            && (forall k :: 0 <= k < |g.allowed| ==> g.allowed[k].inv != c.inv)
            && (forall k :: g.pos + 1 <= k < |g.pending| ==> g.pending[k].inv != c.inv)
  {
  }

  lemma CoherentApprove(s: State, c: Call, grant: Grant)
    requires Coherent(s) && InCall(s) && c == Current(s) && c.known
    ensures Coherent(Approve(s, c, grant))
  {
    hide GateFits, RecordsFit, Registered;
    var g := s.control.gate;
    var record := RecordOf(s, c.inv).(status := Approved);
    CurrentIsAlone(s.issued, s.store, s.completed, g);
    SavingCurrent(s.issued, s.store, s.completed, g, record, AtCall);
    CurrentDone(s.issued, s.store[c.inv := record], s.completed, g.(stage := AtCall), {});
    assert s.completed + {} == s.completed;
    AllowedGrows(s.issued, s.store[c.inv := record], s.completed, g.(pos := g.pos + 1, stage := AtCall), c);
  }

  lemma CoherentPolicy(s: State)
    requires Coherent(s) && AtStage(s, AtPolicy)
    ensures Coherent(ApplyPolicyStep(s))
  {
    var c := Current(s);
    match PolicyVerdict(s.request, c, s.context.scopes)
    case WriteRefused => CoherentFailEarly(s, c, WriteRefusedResult());
    case Refused => CoherentFailEarly(s, c, DeniedResult());
    case Granted(grant) => CoherentApprove(s, c, grant);
    case MustAsk =>
      SavingCurrent(s.issued, s.store, s.completed, s.control.gate,
                    RecordOf(s, c.inv).(status := WaitingApproval), AskSaved);
  }

  lemma CoherentAnswer(s: State, decision: Decision)
    requires Coherent(s) && AtStage(s, AwaitingAnswer)
    ensures Coherent(AnswerStep(s, decision))
  {
    var c := Current(s);
    var effective := if NeedsConfirmation(c) && decision.AllowRun? then AllowOnce else decision;
    var t := s.(log := s.log + [Answered(c, effective)],
                context := if effective.AllowRun? then s.context.(scopes := s.context.scopes + {c.scope}) else s.context);
    if effective.Deny? { CoherentFailEarly(t, c, DeniedResult()); } else { CoherentApprove(t, c, ByAnswer); }
  }

  lemma CoherentAsk(s: State)
    requires Coherent(s) && AtStage(s, AskSaved)
    ensures Coherent(AskStep(s))
  {
  }

  /** Advancing one invocation of the executing batch disturbs no other invocation. */
  lemma Advance(s: State, i: nat, record: Record, p: Progress)
    requires Coherent(s) && s.control.Executing? && i in s.control.exec.progress
    requires ProgressFits(record, s.cancelled, s.issued[i], p) && HoldsResult(record)
    ensures Coherent(SetRecord(SetProgress(s, i, p), i, record))
  {
  }

  lemma CoherentProgress(s: State, i: nat, p: Progress)
    requires Coherent(s) && s.control.Executing? && i in s.control.exec.progress
    requires ProgressFits(s.store[i], s.cancelled, s.issued[i], p)
    ensures Coherent(SetProgress(s, i, p))
  {
  }

  lemma CoherentEndBody(s: State, i: nat, raw: Result, reconciled: Option<Result>)
    requires Coherent(s) && InBody(s, i)
    ensures Coherent(EndBodyStep(s, i, raw, reconciled))
  {
    var c := s.issued[i];
    var r := Settle(c, raw, reconciled, s.cancelled);
    Advance(s, i, RecordOf(s, i).(status := TerminalStatus(c, r), result := Some(TerminalResult(c, r))),
            Returned(TerminalResult(c, r)));
  }

  lemma CoherentReconcileFound(s: State, i: nat, r: Result)
    requires Coherent(s) && MayReconcile(s, i)
    ensures Coherent(ReconcileFoundStep(s, i, r))
  {
    Advance(s, i, RecordOf(s, i).(status := if r.isError then Indeterminate else Succeeded, result := Some(r)), Returned(r));
  }

  lemma CoherentSaveAttempt(s: State, i: nat)
    requires Coherent(s) && MayAttempt(s, i)
    ensures Coherent(SaveAttemptStep(s, i))
  {
    var record := RecordOf(s, i);
    Advance(s, i, record.(status := Running, attempts := record.attempts + 1), AttemptSaved);
  }

  lemma CoherentStartBody(s: State, i: nat)
    requires Coherent(s) && ProgressOf(s, i) == Some(AttemptSaved) && i in s.issued
    ensures Coherent(StartBodyStep(s, i))
  {
    CoherentProgress(s, i, BodyRunning);
  }

  lemma CoherentStartExecution(s: State)
    requires Coherent(s) && RunEnabled(s, StartExecution)
    ensures Coherent(StartExecutionStep(s))
  {
  }

  lemma CoherentEndExecution(s: State)
    requires Coherent(s) && RunEnabled(s, EndExecution)
    ensures Coherent(EndExecutionStep(s))
  {
  }

  lemma CoherentCollect(s: State)
    requires Coherent(s) && RunEnabled(s, CollectNext)
    ensures Coherent(CollectNextStep(s))
  {
    var h := s.control.harvest;
    var t := CollectNextStep(s);
    forall k | h.next + 1 <= k < |h.allowed|
      ensures HarvestReady(s.store, t.completed, s.cancelled, h.outcomes, h.allowed[k])
    {
      assert HarvestReady(s.store, s.completed, s.cancelled, h.outcomes, h.allowed[k]);
      assert h.allowed[k].inv != h.allowed[h.next].inv;
    }
  }

  lemma CoherentStartBatch(s: State)
    requires Coherent(s) && s.control.BatchReady?
    ensures Coherent(StartBatchStep(s))
  {
    UnfinishedRegistered(s.issued, s.control.calls, s.completed);
  }

  lemma CoherentEndBatch(s: State)
    requires Coherent(s) && s.control.Collecting?
    ensures Coherent(EndBatchStep(s))
  {
    UnfinishedRegistered(s.issued, s.control.harvest.pending, s.completed);
  }

  /** The merged checkpoint is coherent; while the run is active the merge leaves memory alone. */
  lemma CoherentPreserve(s: State)
    requires Coherent(s)
    ensures Coherent(PreserveStep(s))
  {
    UnfinishedRegistered(s.issued, s.checkpoint.pending, Preserved(s).completed);
  }

  lemma CoherentCancel(s: State)
    requires Coherent(s)
    ensures Coherent(CancelStep(s))
  {
  }

  lemma CoherentForget(s: State, cp: Checkpoint)
    requires Coherent(s) && Registered(s.issued, cp.pending)
    ensures Coherent(Forget(s, cp))
  {
  }

  lemma CoherentCrash(s: State)
    requires Coherent(s)
    ensures Coherent(Forget(s, s.checkpoint))
  {
  }

  lemma CoherentFinish(s: State, resumable: bool)
    requires Coherent(s)
    ensures Coherent(Forget(s, FinalCheckpoint(s, resumable)))
  {
    UnfinishedRegistered(s.issued, s.checkpoint.pending, FinalCheckpoint(s, resumable).completed);
    UnfinishedRegistered(s.issued, s.context.pending, FinalCheckpoint(s, resumable).completed);
    CoherentForget(s, FinalCheckpoint(s, resumable));
  }

  lemma CoherentResume(s: State, withInput: bool)
    requires Coherent(s) && s.control.Inactive?
    ensures Coherent(ResumeStep(s, withInput))
  {
    UnfinishedRegistered(s.issued, s.checkpoint.pending, s.checkpoint.completed);
  }

  lemma CoherentRecoverLease(s: State)
    requires Coherent(s) && s.control.Inactive?
    ensures Coherent(RecoverLeaseStep(s))
  {
  }

  lemma CoherentResolve(s: State, i: nat, human: HumanDecision)
    requires Coherent(s) && s.control.Inactive? && StatusOf(s, i) == Some(Indeterminate)
    ensures Coherent(ResolveStep(s, i, human))
  {
  }

  lemma GateKeepsCoherent(s: State, a: GateAction)
    requires Coherent(s) && GateEnabled(s, a)
    ensures Coherent(GateStep(s, a))
  {
    hide Coherent, ResultMessages, InsertRow, WithoutIds, RowsWithoutIds;
    match a
    case Unknown => CoherentUnknown(s);
    case Receive => CoherentReceive(s);
    case Replay => CoherentReplay(s);
    case Unclear => CoherentUnclear(s);
    case Reject => CoherentReject(s);
    case Accept => CoherentAccept(s);
    case AppendEarly => CoherentAppendEarly(s);
    case ApplyPolicy => CoherentPolicy(s);
    case AskCheckpoint => CoherentAsk(s);
    case Answer(decision) => CoherentAnswer(s, decision);
  }

  lemma RunKeepsCoherent(s: State, a: RunAction)
    requires Coherent(s) && RunEnabled(s, a)
    ensures Coherent(RunStep(s, a))
  {
    match a
    case StartExecution => CoherentStartExecution(s);
    case SkipCancelled(i) => CoherentProgress(s, i, Returned(CancelledResult()));
    case ReconcileFound(i, r) => CoherentReconcileFound(s, i, r);
    case ReconcileNothing(i) => CoherentProgress(s, i, Attempting);
    case SaveAttempt(i) => CoherentSaveAttempt(s, i);
    case StartBody(i) => CoherentStartBody(s, i);
    case RetryBody(i, _) => CoherentProgress(s, i, Attempting);
    case EndBody(i, raw, reconciled) => CoherentEndBody(s, i, raw, reconciled);
    case EndExecution => CoherentEndExecution(s);
    case CollectNext => CoherentCollect(s);
  }

  lemma TurnKeepsCoherent(s: State, a: TurnAction)
    requires Coherent(s) && TurnEnabled(s, a)
    ensures Coherent(TurnStep(s, a))
  {
    match a
    case ModelTurn(calls) => CoherentModelTurn(s, calls);
    case StartBatch => CoherentStartBatch(s);
    case EndBatch => CoherentEndBatch(s);
    case _ =>
  }

  lemma StopKeepsCoherent(s: State, a: StopAction)
    requires Coherent(s) && StopEnabled(s, a)
    ensures Coherent(StopStep(s, a))
  {
    hide Coherent, LongestMessages, Unfinished, Unsaved, Append;
    match a
    case RequestCancel => CoherentCancel(s);
    case PreserveCheckpoint => CoherentPreserve(s);
    case Finish(resumable) => CoherentFinish(s, resumable);
    case Crash => CoherentCrash(s);
    case RecoverLease => CoherentRecoverLease(s);
    case ResolveByHuman(i, human) => CoherentResolve(s, i, human);
    case Resume(withInput) => CoherentResume(s, withInput);
  }

  /** Every step keeps the control state and the records in line with each other. */
  lemma StepKeepsCoherent(s: State, a: Action)
    requires Coherent(s) && Enabled(s, a)
    ensures Coherent(Step(s, a))
  {
    hide Coherent, GateStep, RunStep, TurnStep, StopStep, GateEnabled, RunEnabled, TurnEnabled, StopEnabled;
    match a
    case Gate(g) => GateKeepsCoherent(s, g);
    case Run(r) => RunKeepsCoherent(s, r);
    case Turn(t) => TurnKeepsCoherent(s, t);
    case Stop(x) => StopKeepsCoherent(s, x);
  }

  lemma {:induction false} CoherentThroughout(states: seq<State>, actions: seq<Action>, k: nat)
    requires IsRun(states, actions) && Coherent(states[0]) && k < |states|
    ensures Coherent(states[k])
  {
    hide Step, Enabled, Coherent;
    if k > 0 {
      CoherentThroughout(states, actions, k - 1);
      StepKeepsCoherent(states[k - 1], actions[k - 1]);
      assert states[k - 1 + 1] == Step(states[k - 1], actions[k - 1]);
    }
  }

  // ---------------------------------------------------------------- how often a body starts

  /** The tool behind an invocation does not report success under the error code of a cancellation. */
  predicate Plain(a: Action, i: nat) {
    a.Run? && a.run.EndBody? && a.run.inv == i && a.run.raw.code.CancelledCode? ==> a.run.raw.isError
  }

  predicate BeforeStart(status: Option<Status>) {
    status.None? || status.value.Received? || status.value.Validated? || status.value.WaitingApproval?
    || status.value.Approved?
  }

  /** The count of starts leaves room for one more exactly while the record has not been started. */
  predicate WithinBound(status: Option<Status>, saved: bool, starts: nat, retries: nat) {
    && starts <= 1 + retries
    && (BeforeStart(status) || saved ==> starts <= retries)
    && status != Some(Cancelled)
  }

  predicate BoundFor(s: State, i: nat) {
    if i !in s.issued then Starts(s.log, i) == 0
    else s.issued[i].policy.Never? ==>
           WithinBound(StatusOf(s, i), ProgressOf(s, i) == Some(AttemptSaved), Starts(s.log, i), Retries(s.log, i))
  }

  /** How gating may move the status of the call it examines. */
  predicate GateMove(c: Call, before: Option<Status>, after: Option<Status>) {
    && (before == Some(Indeterminate) ==> after == before)
    && (after == Some(Cancelled) ==> after == before)
    && (c.policy.Never? && BeforeStart(after) ==> BeforeStart(before) || before == Some(Cancelled))
  }

  predicate Silent(e: Event) {
    e.Answered? || e.Allowed?
  }

  /** Gating touches the record of the examined call only, and starts nothing. */
  ghost predicate GateEffect(s: State, t: State)
    requires InCall(s)
  {
    && t.control.Gating? && t.issued == s.issued && t.cancelled == s.cancelled && t.spliced == s.spliced
    && (forall j :: j != Current(s).inv ==> StatusOf(t, j) == StatusOf(s, j))
    && GateMove(Current(s), StatusOf(s, Current(s).inv), StatusOf(t, Current(s).inv))
    && s.log <= t.log && (forall k :: |s.log| <= k < |t.log| ==> Silent(t.log[k]))
  }

  lemma EffectFirst(s: State)
    requires Coherent(s) && AtStage(s, AtCall)
    ensures !Current(s).known ==> GateEffect(s, UnknownStep(s))
    ensures Current(s).known && Current(s).inv !in s.store ==> GateEffect(s, ReceiveStep(s))
  {
  }

  lemma EffectReplay(s: State)
    requires Coherent(s) && AtStoredCall(s) && Settled(CurrentRecord(s))
    ensures GateEffect(s, ReplayStep(s))
  {
  }

  lemma EffectUnclear(s: State)
    requires Coherent(s) && AtStoredCall(s) && Unrepeatable(Current(s), CurrentRecord(s))
    ensures GateEffect(s, UnclearStep(s))
  {
  }

  lemma EffectReject(s: State)
    requires Coherent(s) && AtRunnableCall(s)
    ensures GateEffect(s, RejectStep(s))
  {
  }

  lemma EffectAccept(s: State)
    requires Coherent(s) && AtRunnableCall(s)
    ensures GateEffect(s, AcceptStep(s))
  {
  }

  lemma EffectAppendEarly(s: State)
    requires Coherent(s) && AtEarlyResult(s)
    ensures GateEffect(s, AppendEarlyStep(s))
  {
  }

  lemma EffectAsk(s: State)
    requires Coherent(s) && AtStage(s, AskSaved)
    ensures GateEffect(s, AskStep(s))
  {
  }

  lemma EffectFail(s: State, r: Result)
    requires Coherent(s) && (AtStage(s, AtPolicy) || AtStage(s, AwaitingAnswer))
    ensures GateEffect(s, FailEarly(s, Current(s), r))
  {
  }

  lemma EffectApprove(s: State, grant: Grant)
    requires Coherent(s) && (AtStage(s, AtPolicy) || AtStage(s, AwaitingAnswer))
    ensures GateEffect(s, Approve(s, Current(s), grant))
  {
  }

  lemma EffectPolicy(s: State)
    requires Coherent(s) && AtStage(s, AtPolicy)
    ensures GateEffect(s, ApplyPolicyStep(s))
  {
    match PolicyVerdict(s.request, Current(s), s.context.scopes)
    case WriteRefused => EffectFail(s, WriteRefusedResult());
    case Refused => EffectFail(s, DeniedResult());
    case Granted(grant) => EffectApprove(s, grant);
    case MustAsk =>
  }

  lemma EffectAnswer(s: State, decision: Decision)
    requires Coherent(s) && AtStage(s, AwaitingAnswer)
    ensures GateEffect(s, AnswerStep(s, decision))
  {
  }

  lemma GateEffects(s: State, a: GateAction)
    requires Coherent(s) && GateEnabled(s, a)
    ensures InCall(s) && GateEffect(s, GateStep(s, a))
  {
    match a
    case Unknown => EffectFirst(s);
    case Receive => EffectFirst(s);
    case Replay => EffectReplay(s);
    case Unclear => EffectUnclear(s);
    case Reject => EffectReject(s);
    case Accept => EffectAccept(s);
    case AppendEarly => EffectAppendEarly(s);
    case ApplyPolicy => EffectPolicy(s);
    case AskCheckpoint => EffectAsk(s);
    case Answer(decision) => EffectAnswer(s, decision);
  }

  lemma SilentLog(log: seq<Event>, more: seq<Event>, i: nat)
    requires log <= more && forall k :: |log| <= k < |more| ==> Silent(more[k])
    ensures Starts(more, i) == Starts(log, i) && Retries(more, i) == Retries(log, i)
  {
  }

  lemma GateKeepsBound(s: State, t: State, i: nat)
    requires InCall(s) && GateEffect(s, t) && Coherent(s) && BoundFor(s, i)
    ensures BoundFor(t, i)
  {
    SilentLog(s.log, t.log, i);
  }

  lemma SaveAttemptKeepsBound(s: State, j: nat, i: nat)
    requires Coherent(s) && MayAttempt(s, j) && BoundFor(s, i)
    ensures BoundFor(SaveAttemptStep(s, j), i)
  {
  }

  lemma StartBodyKeepsBound(s: State, j: nat, i: nat)
    requires Coherent(s) && ProgressOf(s, j) == Some(AttemptSaved) && j in s.issued && BoundFor(s, i)
    ensures BoundFor(StartBodyStep(s, j), i)
  {
  }

  lemma ProgressKeepsBound(s: State, j: nat, p: Progress, i: nat)
    requires Coherent(s) && s.control.Executing? && j in s.control.exec.progress && !p.AttemptSaved? && BoundFor(s, i)
    ensures BoundFor(SetProgress(s, j, p), i)
  {
  }

  lemma EndBodyKeepsBound(s: State, j: nat, raw: Result, reconciled: Option<Result>, i: nat)
    requires Coherent(s) && InBody(s, j) && BoundFor(s, i) && Plain(Run(EndBody(j, raw, reconciled)), i)
    ensures BoundFor(EndBodyStep(s, j, raw, reconciled), i)
  {
  }

  lemma ReconcileKeepsBound(s: State, j: nat, r: Result, i: nat)
    requires Coherent(s) && MayReconcile(s, j) && BoundFor(s, i)
    ensures BoundFor(ReconcileFoundStep(s, j, r), i)
  {
  }

  lemma SwitchKeepsBound(s: State, a: RunAction, i: nat)
    requires Coherent(s) && RunEnabled(s, a) && BoundFor(s, i)
    requires a.StartExecution? || a.EndExecution? || a.CollectNext?
    ensures BoundFor(RunStep(s, a), i)
  {
    hide Registered, Starts, Retries, InsertRow, Outcomes, IssuedBy;
  }

  lemma RunKeepsBound(s: State, a: RunAction, i: nat)
    requires Coherent(s) && RunEnabled(s, a) && BoundFor(s, i) && Plain(Run(a), i)
    ensures BoundFor(RunStep(s, a), i)
  {
    match a
    case SkipCancelled(j) => ProgressKeepsBound(s, j, Returned(CancelledResult()), i);
    case ReconcileFound(j, r) => ReconcileKeepsBound(s, j, r, i);
    case ReconcileNothing(j) => ProgressKeepsBound(s, j, Attempting, i);
    case SaveAttempt(j) => SaveAttemptKeepsBound(s, j, i);
    case StartBody(j) => StartBodyKeepsBound(s, j, i);
    case RetryBody(j, _) => ProgressKeepsBound(s, j, Attempting, i);
    case EndBody(j, raw, reconciled) => EndBodyKeepsBound(s, j, raw, reconciled, i);
    case StartExecution => SwitchKeepsBound(s, a, i);
    case EndExecution => SwitchKeepsBound(s, a, i);
    case CollectNext => SwitchKeepsBound(s, a, i);
  }

  lemma ModelTurnKeepsBound(s: State, calls: seq<Call>, i: nat)
    requires Coherent(s) && MayTakeTurn(s, calls) && BoundFor(s, i)
    ensures BoundFor(ModelTurnStep(s, calls), i)
  {
  }

  /** A step that leaves the records alone and starts nothing keeps the bound. */
  lemma QuietKeepsBound(s: State, t: State, i: nat, event: Option<Event>)
    requires Coherent(s) && BoundFor(s, i)
    requires t.issued == s.issued && t.store == s.store && (t.control == s.control || !t.control.Executing?)
    requires event.None? ==> t.log == s.log
    requires event.Some? ==> t.log == s.log + [event.value] && !event.value.BodyStarted? && !event.value.HumanResolved?
    ensures BoundFor(t, i)
  {
  }

  lemma TurnKeepsBound(s: State, a: TurnAction, i: nat)
    requires Coherent(s) && TurnEnabled(s, a) && BoundFor(s, i)
    ensures BoundFor(TurnStep(s, a), i)
  {
    match a
    case ModelTurn(calls) => ModelTurnKeepsBound(s, calls, i);
    case _ =>
      var t := TurnStep(s, a);
      QuietKeepsBound(s, t, i, if t.log == s.log then None else Some(BatchOpened));
  }

  lemma ResolveKeepsBound(s: State, j: nat, human: HumanDecision, i: nat)
    requires Coherent(s) && s.control.Inactive? && StatusOf(s, j) == Some(Indeterminate) && BoundFor(s, i)
    ensures BoundFor(ResolveStep(s, j, human), i)
  {
  }

  lemma RecoverLeaseKeepsBound(s: State, i: nat)
    requires Coherent(s) && s.control.Inactive? && BoundFor(s, i)
    ensures BoundFor(RecoverLeaseStep(s), i)
  {
  }

  lemma StopKeepsBound(s: State, a: StopAction, i: nat)
    requires Coherent(s) && StopEnabled(s, a) && BoundFor(s, i)
    ensures BoundFor(StopStep(s, a), i)
  {
    hide Coherent, BoundFor, Preserved, FinalCheckpoint, Unsaved, Unfinished, Append, ResolvedRecord, RecoveredStore;
    match a
    case RequestCancel => QuietKeepsBound(s, CancelStep(s), i, None);
    case PreserveCheckpoint => QuietKeepsBound(s, PreserveStep(s), i, None);
    case Finish(resumable) =>
      var cp := FinalCheckpoint(s, resumable);
      QuietKeepsBound(s, Forget(s, cp), i, Some(ProcessEnded(Unsaved(s, cp))));
    case Crash => QuietKeepsBound(s, Forget(s, s.checkpoint), i, Some(ProcessEnded(Unsaved(s, s.checkpoint))));
    case RecoverLease => RecoverLeaseKeepsBound(s, i);
    case ResolveByHuman(j, human) => ResolveKeepsBound(s, j, human, i);
    case Resume(withInput) => QuietKeepsBound(s, ResumeStep(s, withInput), i, None);
  }

  lemma StepKeepsBound(s: State, a: Action, i: nat)
    requires Coherent(s) && Enabled(s, a) && Plain(a, i) && BoundFor(s, i)
    ensures BoundFor(Step(s, a), i)
  {
    hide Coherent, BoundFor, GateStep, RunStep, TurnStep, StopStep, GateEnabled, RunEnabled, TurnEnabled, StopEnabled;
    match a
    case Gate(g) =>
      GateEffects(s, g);
      GateKeepsBound(s, GateStep(s, g), i);
    case Run(r) => RunKeepsBound(s, r, i);
    case Turn(t) => TurnKeepsBound(s, t, i);
    case Stop(x) => StopKeepsBound(s, x, i);
  }

  lemma {:induction false} BoundThroughout(states: seq<State>, actions: seq<Action>, k: nat, i: nat)
    requires IsRun(states, actions) && Coherent(states[0]) && BoundFor(states[0], i) && k < |states|
    requires forall j :: 0 <= j < |actions| ==> Plain(actions[j], i)
    ensures BoundFor(states[k], i)
  {
    hide Step, Enabled, Coherent, BoundFor, Plain;
    if k > 0 {
      BoundThroughout(states, actions, k - 1, i);
      CoherentThroughout(states, actions, k - 1);
      StepKeepsBound(states[k - 1], actions[k - 1], i);
      assert states[k - 1 + 1] == Step(states[k - 1], actions[k - 1]);
    }
  }

  lemma StartFits(request: Request, history: seq<Message>, i: nat)
    ensures Coherent(Start(request, history)) && BoundFor(Start(request, history), i)
  {
  }

  /** Over every interleaving of batches, cancellations, crashes, resumes and human decisions,
      the body of a call that must never be replayed starts at most once, plus once for each
      human decision to retry it. */
  lemma NeverReplayed(request: Request, history: seq<Message>, states: seq<State>, actions: seq<Action>, k: nat, i: nat)
    requires IsRun(states, actions) && states[0] == Start(request, history) && k < |states|
    requires forall j :: 0 <= j < |actions| ==> Plain(actions[j], i)
    ensures i in states[k].issued && states[k].issued[i].policy.Never? ==>
              Starts(states[k].log, i) <= 1 + Retries(states[k].log, i)
  {
    StartFits(request, history, i);
    BoundThroughout(states, actions, k, i);
  }

  /** Which outcomes of a finished attempt leave a never-replayed call open to another start
      without a human: exactly a success reported under the error code of a cancellation. */
  lemma ReopenedExactlyWhen(c: Call, raw: Result, reconciled: Option<Result>, cancelled: bool)
    requires c.known && c.policy.Never?
    ensures var r := Settle(c, raw, reconciled, cancelled);
            var record := Record(TerminalStatus(c, r), Some(TerminalResult(c, r)), 1);
            (!Settled(record) && !Unrepeatable(c, record)) <==> (!raw.isError && raw.code.CancelledCode?)
  {
  }

  // ---------------------------------------------------------------- unclear outcomes

  predicate Resolves(a: Action, i: nat) {
    a.Stop? && a.stop.ResolveByHuman? && a.stop.inv == i
  }

  ghost predicate StaysUnclear(s: State, t: State, i: nat) {
    StatusOf(t, i) == Some(Indeterminate) && Starts(t.log, i) == Starts(s.log, i)
  }

  /** Nothing of an invocation with an unclear outcome is left to do in its batch. */
  lemma UnclearIsIdle(s: State, i: nat)
    requires Coherent(s) && StatusOf(s, i) == Some(Indeterminate) && ProgressOf(s, i).Some?
    ensures ProgressOf(s, i).value.Returned?
  {
  }

  lemma StartedIsIssued(s: State, i: nat)
    requires Coherent(s) && RunEnabled(s, StartBody(i))
    ensures s.issued[i].inv == i
  {
  }

  /** Another body may start, but not this one. */
  lemma OtherBodyStarts(s: State, j: nat, i: nat)
    requires Coherent(s) && RunEnabled(s, StartBody(j)) && j != i
    ensures Starts(StartBodyStep(s, j).log, i) == Starts(s.log, i)
  {
    StartedIsIssued(s, j);
    Observe(s.log, BodyStarted(s.issued[j]), i);
  }

  lemma SwitchLeavesUnclear(s: State, a: RunAction, i: nat)
    requires RunEnabled(s, a) && StatusOf(s, i) == Some(Indeterminate)
    requires a.StartExecution? || a.EndExecution? || a.CollectNext?
    ensures StaysUnclear(s, RunStep(s, a), i)
  {
    hide InsertRow, Append, Outcomes, IssuedBy, Incomplete, Starts;
  }

  lemma RunLeavesUnclear(s: State, a: RunAction, i: nat)
    requires Coherent(s) && RunEnabled(s, a) && StatusOf(s, i) == Some(Indeterminate)
    ensures StaysUnclear(s, RunStep(s, a), i)
  {
    hide Settle, TerminalStatus, TerminalResult, Uncertain, Coherent, Starts, MustReconcile, StartExecutionStep, EndExecutionStep, CollectNextStep;
    if ProgressOf(s, i).Some? { UnclearIsIdle(s, i); }
    if a.StartExecution? || a.EndExecution? || a.CollectNext? {
      SwitchLeavesUnclear(s, a, i);
    } else if a.StartBody? {
      OtherBodyStarts(s, a.inv, i);
    }
  }

  lemma TurnLeavesUnclear(s: State, a: TurnAction, i: nat)
    requires TurnEnabled(s, a) && StatusOf(s, i) == Some(Indeterminate)
    ensures StaysUnclear(s, TurnStep(s, a), i)
  {
  }

  lemma StopLeavesUnclear(s: State, a: StopAction, i: nat)
    requires StopEnabled(s, a) && StatusOf(s, i) == Some(Indeterminate) && !Resolves(Stop(a), i)
    ensures StaysUnclear(s, StopStep(s, a), i)
  {
  }

  /** An invocation with an unclear outcome keeps it, and its body stays untouched, until a human decides. */
  lemma UnclearStaysUntilHuman(s: State, a: Action, i: nat)
    requires Coherent(s) && Enabled(s, a) && StatusOf(s, i) == Some(Indeterminate) && !Resolves(a, i)
    ensures StaysUnclear(s, Step(s, a), i)
  {
    hide Coherent, Starts, Retries, GateStep, RunStep, TurnStep, StopStep, GateEnabled, RunEnabled, TurnEnabled, StopEnabled;
    match a
    case Gate(g) =>
      GateEffects(s, g);
      SilentLog(s.log, GateStep(s, g).log, i);
    case Run(r) => RunLeavesUnclear(s, r, i);
    case Turn(t) => TurnLeavesUnclear(s, t, i);
    case Stop(x) => StopLeavesUnclear(s, x, i);
  }

  /** Over whole runs: without a human decision an unclear outcome is never run again. */
  lemma {:induction false} UnclearNeverRunAgain(states: seq<State>, actions: seq<Action>, from: nat, k: nat, i: nat)
    requires IsRun(states, actions) && Coherent(states[0]) && from <= k < |states|
    requires StatusOf(states[from], i) == Some(Indeterminate)
    requires forall j :: from <= j < k ==> !Resolves(actions[j], i)
    ensures StaysUnclear(states[from], states[k], i)
  {
    hide Step, Enabled, Coherent, Resolves;
    if k > from {
      UnclearNeverRunAgain(states, actions, from, k - 1, i);
      CoherentThroughout(states, actions, k - 1);
      UnclearStaysUntilHuman(states[k - 1], actions[k - 1], i);
      assert states[k - 1 + 1] == Step(states[k - 1], actions[k - 1]);
    }
  }
}
