/** Governed tool execution with crash recovery, as a state machine.

    A run owns a durable half (one record per tool invocation, one checkpoint, and
    the message rows) and a volatile half (message list, completed ids, approval
    scopes, the batch in progress).  Every action below is the code between two
    awaits or two durable writes, so a `Crash` may fall between any two of them; it
    throws the volatile half away and leaves the checkpoint and the records.

    The order in which the invocations of one batch advance is left open, which
    covers every order the effect scheduler can choose. */
module ToolRecovery {
  import opened Common

  datatype Policy = Safe | Reconcile | Never
  datatype Effect = Pure | WorkspaceRead | WorkspaceWrite | Process | Network | Destructive
  datatype Status =
    | Received | Validated | WaitingApproval | Approved | Running
    | Succeeded | Failed | Cancelled | Indeterminate
  datatype ApprovalMode = Ask | Auto | NeverAsk
  datatype Decision = AllowOnce | AllowRun | Deny
  datatype HumanDecision = MarkSucceeded | Skip | Retry

  datatype Code =
    | NoCode | CancelledCode | TimeoutCode | IndeterminateCode
    | UnknownToolCode | InvalidArgumentsCode | WriteNotAllowedCode | ApprovalDeniedCode | OutcomeSkippedCode
    | ToolFailedCode | OtherCode(name: string)

  /** The fixed notices of the executor and of a human decision, and what tools produce. */
  datatype Content =
    | UnknownToolNotice | InvalidArgumentsNotice | WriteRefusedNotice | DeniedNotice | CancelledNotice
    | HumanSucceededNotice | HumanSkippedNotice | Output(text: string)

  datatype Result = Result(isError: bool, code: Code, retryable: bool, content: Content)

  /** A model-issued call with the answers the tool registry gives about it. */
  datatype Call = Call(inv: nat, providerId: string, known: bool, validArguments: bool,
                       effect: Effect, policy: Policy, confirms: bool, declared: bool, scope: string)

  datatype Record = Record(status: Status, result: Option<Result>, attempts: nat)

  datatype Message =
    | UserMessage(id: nat)
    | AssistantMessage(id: nat, calls: seq<Call>)
    | ToolMessage(id: nat, inv: Option<nat>, providerId: string, result: Result)

  /** A message row with the sequence number it was saved under. */
  datatype Row = Row(seqNo: nat, message: Message)

  datatype Phase = ModelTurnPhase | ToolBatchPhase | WaitingPhase
  datatype Checkpoint = Checkpoint(messages: seq<Message>, completed: set<nat>, pending: seq<Call>, phase: Phase)

  datatype Request = Request(mode: ApprovalMode, allowWrite: bool)

  /** What an allowed call was allowed by. */
  datatype Grant = ByMode | ByScope | ByAnswer
  datatype Verdict = WriteRefused | Refused | Granted(grant: Grant) | MustAsk

  /** Where the gating of one call stands. */
  datatype Stage = AtCall | EarlyResult(result: Result) | AtPolicy | AskSaved | AwaitingAnswer
  /** Where the execution of one allowed invocation stands. */
  datatype Progress = Queued | Attempting | AttemptSaved | BodyRunning | Returned(result: Result)

  datatype Gate = GateState(pending: seq<Call>, pos: nat, stage: Stage, allowed: seq<Call>, recovering: set<nat>)
  datatype Execution = Execution(pending: seq<Call>, allowed: seq<Call>, recovering: set<nat>, progress: map<nat, Progress>)
  datatype Harvest = Harvest(pending: seq<Call>, allowed: seq<Call>, outcomes: map<nat, Result>, next: nat)

  datatype Control =
    | Inactive
    | Looping
    | TurnSaved(calls: seq<Call>)
    | BatchReady(calls: seq<Call>)
    | Gating(gate: Gate)
    | Executing(exec: Execution)
    | Collecting(harvest: Harvest)

  /** What an observer of the run sees; the log is never read by the run itself. */
  datatype Event =
    | BatchOpened
    | Answered(call: Call, answer: Decision)
    | Allowed(call: Call, grant: Grant)
    | BodyStarted(call: Call)
    | HumanResolved(inv: nat, human: HumanDecision)
    | ProcessEnded(unsaved: seq<Message>)

  /** The message list in memory, the rows saved for it, and the next unused message id. */
  datatype Transcript = Transcript(messages: seq<Message>, rows: seq<Row>, nextId: nat)

  /** The run context that cancellation and interruption read. */
  datatype Context = Context(completed: set<nat>, pending: seq<Call>, scopes: set<string>)

  /** `spliced` counts the messages of earlier runs that precede this run's own. */
  datatype State = State(
    request: Request,
    spliced: nat,
    store: map<nat, Record>,
    checkpoint: Checkpoint,
    transcript: Transcript,
    control: Control,
    completed: set<nat>,
    context: Context,
    cancelled: bool,
    needsHuman: bool,
    issued: map<nat, Call>,
    log: seq<Event>)

  /** Examining the calls of a batch one after the other. */
  datatype GateAction =
    | Unknown | Receive | Replay | Unclear | Reject | Accept
    | AppendEarly
    | ApplyPolicy
    | AskCheckpoint
    | Answer(decision: Decision)

  /** Running the allowed invocations of a batch and harvesting their results. */
  datatype RunAction =
    | StartExecution
    | SkipCancelled(inv: nat)
    | ReconcileFound(inv: nat, found: Result)
    | ReconcileNothing(inv: nat)
    | SaveAttempt(inv: nat)
    | StartBody(inv: nat)
    | RetryBody(inv: nat, raw: Result)
    | EndBody(inv: nat, raw: Result, reconciled: Option<Result>)
    | EndExecution
    | CollectNext

  /** Model turns, their checkpoints, and the opening and closing of batches. */
  datatype TurnAction =
    | ModelTurn(calls: seq<Call>)
    | TurnCheckpoint
    | LoopCheckpoint(feedback: bool)
    | StartBatch
    | AbandonBatch
    | EndBatch

  /** Stopping, losing the process, recovering, human decisions and resuming. */
  datatype StopAction =
    | RequestCancel
    | PreserveCheckpoint
    | Finish(resumable: bool)
    | Crash
    | RecoverLease
    | ResolveByHuman(inv: nat, human: HumanDecision)
    | Resume(withInput: bool)

  datatype Action = Gate(gate: GateAction) | Run(run: RunAction) | Turn(turn: TurnAction) | Stop(stop: StopAction)

  // ---------------------------------------------------------------- policy

  predicate NeedsConfirmation(c: Call) {
    c.confirms || c.effect.Destructive?
  }

  function AutoDecision(effect: Effect, mode: ApprovalMode): Option<Decision> {
    if effect.Pure? || effect.WorkspaceRead? then Some(AllowOnce)
    else if effect.Destructive? then (if mode.NeverAsk? then Some(Deny) else None)
    else if mode.Auto? then Some(AllowRun)
    else if mode.NeverAsk? then Some(Deny)
    else None
  }

  function PolicyVerdict(request: Request, c: Call, scopes: set<string>): Verdict {
    if !request.allowWrite && (c.effect.WorkspaceWrite? || c.effect.Destructive?) then WriteRefused
    else
      var force := NeedsConfirmation(c) || c.declared;
      var decision :=
        if force then (if request.mode.NeverAsk? then Some(Deny) else None)
        else AutoDecision(c.effect, request.mode);
      if !NeedsConfirmation(c) && decision.None? && c.scope in scopes then Granted(ByScope)
      else if decision.None? then MustAsk
      else if decision.value.Deny? then Refused
      else Granted(ByMode)
  }

  // ---------------------------------------------------------------- results

  function UnknownToolResult(): Result { Result(true, UnknownToolCode, false, UnknownToolNotice) }
  function InvalidArgumentsResult(): Result { Result(true, InvalidArgumentsCode, true, InvalidArgumentsNotice) }
  function WriteRefusedResult(): Result { Result(true, WriteNotAllowedCode, false, WriteRefusedNotice) }
  function DeniedResult(): Result { Result(true, ApprovalDeniedCode, false, DeniedNotice) }
  function CancelledResult(): Result { Result(true, CancelledCode, true, CancelledNotice) }
  function HumanSucceededResult(): Result { Result(false, NoCode, false, HumanSucceededNotice) }
  function HumanSkippedResult(): Result { Result(true, OutcomeSkippedCode, false, HumanSkippedNotice) }

  /** The result of one attempt after reconciliation and the filling in of error codes. */
  function Settle(c: Call, raw: Result, reconciled: Option<Result>, cancelled: bool): Result {
    var looked :=
      if raw.isError && (raw.code.TimeoutCode? || raw.code.CancelledCode?) && c.policy.Reconcile? then
        match reconciled
        case Some(r) => if r.isError then r.(code := IndeterminateCode, retryable := false) else r
        case None => raw.(retryable := false)
      else raw;
    var stopped :=
      if looked.isError && cancelled && looked.code.NoCode?
      then looked.(code := CancelledCode, retryable := true) else looked;
    if stopped.isError && stopped.code.NoCode? then stopped.(code := ToolFailedCode) else stopped
  }

  predicate Uncertain(c: Call, r: Result) {
    r.code.IndeterminateCode?
    || (c.policy.Never? && r.isError && (r.code.TimeoutCode? || r.code.CancelledCode?))
  }

  function TerminalStatus(c: Call, r: Result): Status {
    if Uncertain(c, r) then Indeterminate
    else if r.code.CancelledCode? then Cancelled
    else if r.isError then Failed
    else Succeeded
  }

  function TerminalResult(c: Call, r: Result): Result {
    if Uncertain(c, r) then r.(code := IndeterminateCode, retryable := false) else r
  }

  // ---------------------------------------------------------------- transcript

  predicate Carries(m: Message, inv: nat) {
    m.AssistantMessage? && exists k :: 0 <= k < |m.calls| && m.calls[k].inv == inv
  }

  predicate Answers(m: Message, c: Call) {
    m.ToolMessage? && (m.inv == Some(c.inv) || (m.inv.None? && m.providerId == c.providerId))
  }

  /** The result messages that follow the last assistant message carrying the call,
      or every matching message when no assistant message carries it. */
  function ResultMessages(messages: seq<Message>, c: Call): (found: seq<Message>)
    ensures forall m :: m in found ==> m in messages && Answers(m, c)
  {
    if messages == [] then []
    else
      var last := messages[|messages| - 1];
      if Carries(last, c.inv) then []
      else ResultMessages(messages[..|messages| - 1], c) + (if Answers(last, c) then [last] else [])
  }

  function WithoutIds(messages: seq<Message>, ids: set<nat>): (kept: seq<Message>) {
    if messages == [] then []
    else if messages[0].id in ids then WithoutIds(messages[1..], ids)
    else [messages[0]] + WithoutIds(messages[1..], ids)
  }

  function RowsWithoutIds(rows: seq<Row>, ids: set<nat>): (kept: seq<Row>) {
    if rows == [] then []
    else if rows[0].message.id in ids then RowsWithoutIds(rows[1..], ids)
    else [rows[0]] + RowsWithoutIds(rows[1..], ids)
  }

  /** Rows are read back in sequence-number order; equal numbers keep insertion order. */
  function InsertRow(rows: seq<Row>, row: Row): (r: seq<Row>)
    ensures |r| == |rows| + 1
  {
    if rows == [] || rows[|rows| - 1].seqNo <= row.seqNo then rows + [row]
    else InsertRow(rows[..|rows| - 1], row) + [rows[|rows| - 1]]
  }

  function RowMessages(rows: seq<Row>): (r: seq<Message>)
    ensures |r| == |rows|
  {
    if rows == [] then [] else [rows[0].message] + RowMessages(rows[1..])
  }

  function MessageIds(messages: seq<Message>): set<nat> {
    set m | m in messages :: m.id
  }

  /** Append one message to the list and to the rows, numbered by the new list length. */
  function Append(t: Transcript, m: Message): Transcript {
    Transcript(t.messages + [m], InsertRow(t.rows, Row(|t.messages| + 1, m)), t.nextId + 1)
  }

  function DropResults(t: Transcript, c: Call): Transcript {
    var stale := ResultMessages(t.messages, c);
    if stale == [] then t
    else t.(messages := WithoutIds(t.messages, MessageIds(stale)), rows := RowsWithoutIds(t.rows, MessageIds(stale)))
  }

  function AppendResult(t: Transcript, c: Call, r: Result): Transcript {
    Append(t, ToolMessage(t.nextId, Some(c.inv), c.providerId, r))
  }

  /** The longest of the list in memory, the checkpointed list and the rows; the earlier one wins a tie. */
  function LongestMessages(t: Transcript, checkpointed: seq<Message>): seq<Message> {
    var best := if |checkpointed| > |t.messages| then checkpointed else t.messages;
    if |t.rows| > |best| then RowMessages(t.rows) else best
  }

  function Unfinished(calls: seq<Call>, completed: set<nat>): (r: seq<Call>)
    ensures forall c :: c in r ==> c in calls && c.inv !in completed
    ensures |r| <= |calls|
  {
    if calls == [] then []
    else if calls[0].inv in completed then Unfinished(calls[1..], completed)
    else [calls[0]] + Unfinished(calls[1..], completed)
  }

  // ---------------------------------------------------------------- enabling

  predicate DistinctCalls(calls: seq<Call>) {
    forall i, j :: 0 <= i < j < |calls| ==> calls[i].inv != calls[j].inv
  }

  function StatusOf(s: State, inv: nat): Option<Status> {
    if inv in s.store then Some(s.store[inv].status) else None
  }

  /** The progress of an invocation of the executing batch, when there is one. */
  function ProgressOf(s: State, inv: nat): Option<Progress> {
    if s.control.Executing? && inv in s.control.exec.progress then Some(s.control.exec.progress[inv]) else None
  }

  predicate MustReconcile(s: State, inv: nat) {
    s.control.Executing? && inv in s.control.exec.recovering && inv in s.issued && s.issued[inv].policy.Reconcile?
  }

  predicate InCall(s: State) {
    s.control.Gating? && s.control.gate.pos < |s.control.gate.pending|
  }

  predicate AtStage(s: State, stage: Stage) {
    InCall(s) && s.control.gate.stage == stage
  }

  /** The call under examination. */
  function Current(s: State): Call
    requires InCall(s)
  {
    s.control.gate.pending[s.control.gate.pos]
  }

  predicate Settled(r: Record) {
    r.result.Some? && (r.status.Succeeded? || r.status.Failed?)
  }

  predicate Unrepeatable(c: Call, r: Record) {
    r.status.Indeterminate? || (r.status.Running? && c.policy.Never?)
  }

  predicate Interrupted(r: Record) {
    r.status.Running? || r.status.Cancelled?
  }

  predicate AtKnownCall(s: State) {
    AtStage(s, AtCall) && Current(s).known
  }

  predicate AtStoredCall(s: State) {
    AtKnownCall(s) && Current(s).inv in s.store
  }

  function CurrentRecord(s: State): Record
    requires AtStoredCall(s)
  {
    s.store[Current(s).inv]
  }

  /** The record of the call neither holds a result to replay nor stands for an unclear outcome. */
  predicate AtRunnableCall(s: State) {
    AtStoredCall(s) && !Settled(CurrentRecord(s)) && !Unrepeatable(Current(s), CurrentRecord(s))
  }

  predicate AtEarlyResult(s: State) {
    InCall(s) && s.control.gate.stage.EarlyResult?
  }

  /** An invocation id that occurs nowhere in the run yet. */
  predicate Fresh(s: State, inv: nat) {
    && inv !in s.issued && inv !in s.store
    && (forall m :: m in s.transcript.messages && m.ToolMessage? ==> m.inv != Some(inv))
  }

  predicate AllReturned(progress: map<nat, Progress>) {
    forall i :: i in progress ==> progress[i].Returned?
  }

  predicate GateEnabled(s: State, a: GateAction) {
    match a
    case Unknown => AtStage(s, AtCall) && !Current(s).known
    case Receive => AtKnownCall(s) && Current(s).inv !in s.store
    case Replay => AtStoredCall(s) && Settled(CurrentRecord(s))
    case Unclear => AtStoredCall(s) && Unrepeatable(Current(s), CurrentRecord(s))
    case Reject => AtRunnableCall(s) && !Current(s).validArguments
    case Accept => AtRunnableCall(s) && Current(s).validArguments
    case AppendEarly => AtEarlyResult(s)
    case ApplyPolicy => AtStage(s, AtPolicy)
    case AskCheckpoint => AtStage(s, AskSaved)
    case Answer(_) => AtStage(s, AwaitingAnswer)
  }

  predicate MayReconcile(s: State, inv: nat) {
    ProgressOf(s, inv) == Some(Queued) && !s.cancelled && MustReconcile(s, inv)
  }

  predicate MayAttempt(s: State, inv: nat) {
    (ProgressOf(s, inv) == Some(Queued) && !s.cancelled && !MustReconcile(s, inv))
    || ProgressOf(s, inv) == Some(Attempting)
  }

  predicate InBody(s: State, inv: nat) {
    ProgressOf(s, inv) == Some(BodyRunning) && inv in s.issued
  }

  /** Only a retryable error of a call that is safe to repeat starts another attempt. */
  predicate MayRepeat(s: State, inv: nat, raw: Result) {
    InBody(s, inv)
    && var r := Settle(s.issued[inv], raw, None, s.cancelled);
       r.isError && r.retryable && s.issued[inv].policy.Safe? && !s.cancelled
  }

  predicate RunEnabled(s: State, a: RunAction) {
    match a
    case StartExecution => s.control.Gating? && s.control.gate.stage.AtCall? && s.control.gate.pos == |s.control.gate.pending|
    case SkipCancelled(inv) => ProgressOf(s, inv) == Some(Queued) && s.cancelled
    case ReconcileFound(inv, _) => MayReconcile(s, inv)
    case ReconcileNothing(inv) => MayReconcile(s, inv)
    case SaveAttempt(inv) => MayAttempt(s, inv)
    case StartBody(inv) => ProgressOf(s, inv) == Some(AttemptSaved) && inv in s.issued
    case RetryBody(inv, raw) => MayRepeat(s, inv, raw)
    case EndBody(inv, _, _) => InBody(s, inv)
    case EndExecution => s.control.Executing? && AllReturned(s.control.exec.progress)
    case CollectNext => s.control.Collecting? && s.control.harvest.next < |s.control.harvest.allowed|
  }

  predicate MayTakeTurn(s: State, calls: seq<Call>) {
    s.control.Looping? && !s.cancelled && !s.needsHuman && DistinctCalls(calls)
    && forall c :: c in calls ==> Fresh(s, c.inv)
  }

  predicate TurnEnabled(s: State, a: TurnAction) {
    match a
    case ModelTurn(calls) => MayTakeTurn(s, calls)
    case TurnCheckpoint => s.control.TurnSaved?
    case LoopCheckpoint(_) => s.control.Looping? && !s.needsHuman
    case StartBatch => s.control.BatchReady?
    case AbandonBatch => AtStage(s, AwaitingAnswer) && s.cancelled
    case EndBatch => s.control.Collecting? && s.control.harvest.next == |s.control.harvest.allowed|
  }

  predicate StopEnabled(s: State, a: StopAction) {
    match a
    case RequestCancel => true
    case PreserveCheckpoint => true
    case Finish(_) => s.control.Looping? || s.control.TurnSaved? || s.control.BatchReady?
    case Crash => true
    case RecoverLease => s.control.Inactive?
    case ResolveByHuman(inv, _) => s.control.Inactive? && StatusOf(s, inv) == Some(Indeterminate)
    case Resume(_) => s.control.Inactive?
  }

  predicate Enabled(s: State, a: Action) {
    match a
    case Gate(g) => GateEnabled(s, g)
    case Run(r) => RunEnabled(s, r)
    case Turn(t) => TurnEnabled(s, t)
    case Stop(x) => StopEnabled(s, x)
  }

  // ---------------------------------------------------------------- effects

  function SetRecord(s: State, inv: nat, record: Record): State {
    s.(store := s.store[inv := record])
  }

  function RecordOf(s: State, inv: nat): Record {
    if inv in s.store then s.store[inv] else Record(Received, None, 0)
  }

  function SetStatus(s: State, inv: nat, status: Status): State {
    SetRecord(s, inv, RecordOf(s, inv).(status := status))
  }

  function SetStage(s: State, stage: Stage): State
    requires s.control.Gating?
  {
    s.(control := Gating(s.control.gate.(stage := stage)))
  }

  function NextCall(s: State): State
    requires s.control.Gating?
  {
    s.(control := Gating(s.control.gate.(pos := s.control.gate.pos + 1, stage := AtCall)))
  }

  /** Save the failure of the call under examination; `AppendEarly` appends its message. */
  function FailEarly(s: State, c: Call, r: Result): State
    requires s.control.Gating?
  {
    SetStage(SetRecord(s, c.inv, RecordOf(s, c.inv).(status := Failed, result := Some(r))), EarlyResult(r))
  }

  function Approve(s: State, c: Call, grant: Grant): State
    requires s.control.Gating?
  {
    var t := SetStatus(s, c.inv, Approved);
    NextCall(t.(control := Gating(s.control.gate.(allowed := s.control.gate.allowed + [c])),
                log := s.log + [Allowed(c, grant)]))
  }

  function UnknownStep(s: State): State
    requires InCall(s)
  {
    var r := UnknownToolResult();
    SetStage(SetRecord(s, Current(s).inv, Record(Failed, Some(r), 0)), EarlyResult(r))
  }

  function ReceiveStep(s: State): State
    requires InCall(s)
  {
    SetRecord(s, Current(s).inv, Record(Received, None, 0))
  }

  predicate ResultPresent(t: Transcript, c: Call, r: Result) {
    exists m :: m in ResultMessages(t.messages, c) && m.result == r
  }

  /** A result is replayed into the transcript unless it is there already. */
  function Replayed(t: Transcript, c: Call, r: Result): Transcript {
    if ResultPresent(t, c, r) then t else AppendResult(DropResults(t, c), c, r)
  }

  function ReplayStep(s: State): State
    requires AtStoredCall(s) && Settled(CurrentRecord(s))
  {
    var c := Current(s);
    NextCall(s.(transcript := Replayed(s.transcript, c, CurrentRecord(s).result.value), completed := s.completed + {c.inv}))
  }

  function UnclearStep(s: State): State
    requires InCall(s)
  {
    var t := SetStatus(s, Current(s).inv, Indeterminate);
    NextCall(t.(transcript := DropResults(s.transcript, Current(s)), needsHuman := true))
  }

  /** An interrupted invocation loses the results it left in the transcript and is marked as recovering. */
  function Recover(s: State, c: Call): State
    requires s.control.Gating?
  {
    if Interrupted(RecordOf(s, c.inv)) then
      s.(transcript := DropResults(s.transcript, c),
         control := Gating(s.control.gate.(recovering := s.control.gate.recovering + {c.inv})))
    else s
  }

  function RejectStep(s: State): State
    requires InCall(s)
  {
    FailEarly(Recover(s, Current(s)), Current(s), InvalidArgumentsResult())
  }

  function AcceptStep(s: State): State
    requires InCall(s)
  {
    SetStage(SetStatus(Recover(s, Current(s)), Current(s).inv, Validated), AtPolicy)
  }

  function AppendEarlyStep(s: State): State
    requires AtEarlyResult(s)
  {
    NextCall(s.(transcript := AppendResult(s.transcript, Current(s), s.control.gate.stage.result),
                completed := s.completed + {Current(s).inv}))
  }

  function AskStep(s: State): State
    requires InCall(s)
  {
    SetStage(s, AwaitingAnswer)
      .(checkpoint := Checkpoint(s.transcript.messages, s.completed, s.control.gate.pending, WaitingPhase))
  }

  function ApplyPolicyStep(s: State): State
    requires AtStage(s, AtPolicy)
  {
    var c := Current(s);
    match PolicyVerdict(s.request, c, s.context.scopes)
    case WriteRefused => FailEarly(s, c, WriteRefusedResult())
    case Refused => FailEarly(s, c, DeniedResult())
    case Granted(grant) => Approve(s, c, grant)
    case MustAsk => SetStage(SetStatus(s, c.inv, WaitingApproval), AskSaved)
  }

  function AnswerStep(s: State, decision: Decision): State
    requires AtStage(s, AwaitingAnswer)
  {
    var c := Current(s);
    var effective := if NeedsConfirmation(c) && decision.AllowRun? then AllowOnce else decision;
    var t := s.(log := s.log + [Answered(c, effective)],
                context := if effective.AllowRun? then s.context.(scopes := s.context.scopes + {c.scope}) else s.context);
    if effective.Deny? then FailEarly(t, c, DeniedResult()) else Approve(t, c, ByAnswer)
  }

  function SetProgress(s: State, inv: nat, p: Progress): State
    requires s.control.Executing?
  {
    s.(control := Executing(s.control.exec.(progress := s.control.exec.progress[inv := p])))
  }

  function EndBodyStep(s: State, inv: nat, raw: Result, reconciled: Option<Result>): State
    requires s.control.Executing? && inv in s.issued
  {
    var c := s.issued[inv];
    var r := Settle(c, raw, reconciled, s.cancelled);
    SetRecord(SetProgress(s, inv, Returned(TerminalResult(c, r))), inv,
              RecordOf(s, inv).(status := TerminalStatus(c, r), result := Some(TerminalResult(c, r))))
      .(needsHuman := s.needsHuman || Uncertain(c, r))
  }

  function ReconcileFoundStep(s: State, inv: nat, r: Result): State
    requires s.control.Executing?
  {
    SetRecord(SetProgress(s, inv, Returned(r)), inv,
              RecordOf(s, inv).(status := if r.isError then Indeterminate else Succeeded, result := Some(r)))
      .(needsHuman := s.needsHuman || r.isError)
  }

  function StartBodyStep(s: State, inv: nat): State
    requires s.control.Executing? && inv in s.issued
  {
    SetProgress(s, inv, BodyRunning).(log := s.log + [BodyStarted(s.issued[inv])])
  }

  function SaveAttemptStep(s: State, inv: nat): State
    requires s.control.Executing?
  {
    var record := RecordOf(s, inv);
    SetRecord(SetProgress(s, inv, AttemptSaved), inv, record.(status := Running, attempts := record.attempts + 1))
  }

  /** An error is left for a resume when the run is being cancelled, and an unclear outcome for a human. */
  predicate Incomplete(s: State, inv: nat, r: Result) {
    StatusOf(s, inv) == Some(Indeterminate) || (s.cancelled && r.isError)
  }

  function CollectNextStep(s: State): State
    requires s.control.Collecting? && s.control.harvest.next < |s.control.harvest.allowed|
  {
    var c := s.control.harvest.allowed[s.control.harvest.next];
    var t := s.(control := Collecting(s.control.harvest.(next := s.control.harvest.next + 1)));
    if c.inv !in s.control.harvest.outcomes then t
    else
      var r := s.control.harvest.outcomes[c.inv];
      if Incomplete(s, c.inv, r) then t
      else t.(transcript := AppendResult(s.transcript, c, r), completed := s.completed + {c.inv},
              context := s.context.(completed := s.context.completed + {c.inv}))
  }

  /** The messages of the list in memory that the checkpoint lacks. */
  function Unsaved(s: State, cp: Checkpoint): seq<Message> {
    if |s.transcript.messages| > |cp.messages| then s.transcript.messages[|cp.messages|..] else []
  }

  /** Leave memory: what remains is the checkpoint, the records and the rows. */
  function Forget(s: State, cp: Checkpoint): State {
    s.(control := Inactive, checkpoint := cp,
       transcript := s.transcript.(messages := cp.messages), completed := cp.completed,
       context := Context({}, [], {}), cancelled := false, needsHuman := false,
       log := s.log + [ProcessEnded(Unsaved(s, cp))])
  }

  /** The checkpoint that cancellation and interruption write. */
  function Preserved(s: State): Checkpoint {
    var completed := s.context.completed + s.checkpoint.completed;
    Checkpoint(LongestMessages(s.transcript, s.checkpoint.messages), completed,
               if s.context.pending == [] then Unfinished(s.checkpoint.pending, completed) else s.context.pending,
               ToolBatchPhase)
  }

  /** The checkpoint that the end of the loop writes. */
  function FinalCheckpoint(s: State, resumable: bool): Checkpoint {
    var completed := s.context.completed + s.checkpoint.completed;
    var source := if s.context.pending == [] then s.checkpoint.pending else s.context.pending;
    Checkpoint(LongestMessages(s.transcript, s.checkpoint.messages), completed,
               if resumable then Unfinished(source, completed) else [], ToolBatchPhase)
  }

  function PreserveStep(s: State): State {
    var cp := Preserved(s);
    var t := s.(checkpoint := cp, context := s.context.(completed := cp.completed));
    if s.control.Inactive? then t.(transcript := s.transcript.(messages := cp.messages), completed := cp.completed) else t
  }

  function RecoveredStore(s: State): map<nat, Record> {
    map i | i in s.store ::
      if s.store[i].status.Running? && i in s.issued && s.issued[i].policy.Never?
      then s.store[i].(status := Indeterminate) else s.store[i]
  }

  function ResolvedRecord(record: Record, human: HumanDecision): Record {
    match human
    case MarkSucceeded => record.(status := Succeeded, result := Some(HumanSucceededResult()))
    case Skip => record.(status := Failed, result := Some(HumanSkippedResult()))
    case Retry => record.(status := Received, result := None)
  }

  function ResumeStep(s: State, withInput: bool): State
    requires s.control.Inactive?
  {
    var cp := s.checkpoint;
    var loaded := s.transcript.(messages := cp.messages);
    var pending := Unfinished(cp.pending, cp.completed);
    s.(transcript := if withInput then Append(loaded, UserMessage(loaded.nextId)) else loaded,
       completed := cp.completed, context := Context(cp.completed, pending, {}),
       control := if pending != [] && !cp.phase.ModelTurnPhase? then BatchReady(pending) else Looping)
  }

  function StartBatchStep(s: State): State
    requires s.control.BatchReady?
  {
    var pending := Unfinished(s.control.calls, s.completed);
    if pending == [] then s.(control := Looping)
    else
      s.(control := Gating(GateState(pending, 0, AtCall, [], {})),
         context := Context(s.completed, pending, s.context.scopes),
         checkpoint := Checkpoint(s.transcript.messages, s.completed, pending, ToolBatchPhase),
         log := s.log + [BatchOpened])
  }

  function IssuedBy(calls: seq<Call>): (m: map<nat, Call>)
    ensures forall i :: i in m ==> m[i] in calls && m[i].inv == i
    ensures forall c :: c in calls ==> c.inv in m
  {
    if calls == [] then map[]
    else IssuedBy(calls[..|calls| - 1])[calls[|calls| - 1].inv := calls[|calls| - 1]]
  }

  function Outcomes(progress: map<nat, Progress>): map<nat, Result> {
    map i | i in progress && progress[i].Returned? :: progress[i].result
  }

  function EndBatchStep(s: State): State
    requires s.control.Collecting?
  {
    var pending := Unfinished(s.control.harvest.pending, s.completed);
    s.(control := Looping, context := Context(s.completed, pending, s.context.scopes),
       checkpoint := Checkpoint(s.transcript.messages, s.completed, pending, ToolBatchPhase))
  }

  function ModelTurnStep(s: State, calls: seq<Call>): State {
    s.(transcript := Append(s.transcript, AssistantMessage(s.transcript.nextId, calls)),
       control := TurnSaved(calls), issued := s.issued + IssuedBy(calls))
  }

  function TurnCheckpointStep(s: State): State
    requires s.control.TurnSaved?
  {
    s.(control := if s.control.calls == [] then Looping else BatchReady(s.control.calls),
       checkpoint := Checkpoint(s.transcript.messages, s.completed, s.control.calls, ModelTurnPhase))
  }

  function LoopCheckpointStep(s: State, feedback: bool): State {
    var t := if feedback then Append(s.transcript, UserMessage(s.transcript.nextId)) else s.transcript;
    s.(transcript := t, checkpoint := Checkpoint(t.messages, s.completed, [], ModelTurnPhase))
  }

  function StartExecutionStep(s: State): State
    requires s.control.Gating?
  {
    var g := s.control.gate;
    s.(control := Executing(Execution(g.pending, g.allowed, g.recovering,
                                      map i | i in IssuedBy(g.allowed) :: Queued)))
  }

  function EndExecutionStep(s: State): State
    requires s.control.Executing?
  {
    var e := s.control.exec;
    s.(control := Collecting(Harvest(e.pending, e.allowed, Outcomes(e.progress), 0)))
  }

  function ResolveStep(s: State, inv: nat, human: HumanDecision): State
    requires inv in s.store
  {
    SetRecord(s, inv, ResolvedRecord(s.store[inv], human)).(log := s.log + [HumanResolved(inv, human)])
  }

  function CancelStep(s: State): State {
    s.(cancelled := s.cancelled || !s.control.Inactive?)
  }

  function RecoverLeaseStep(s: State): State {
    s.(store := RecoveredStore(s))
  }

  function GateStep(s: State, a: GateAction): (t: State)
    requires GateEnabled(s, a)
    ensures t.request == s.request
  {
    match a
    case Unknown => UnknownStep(s)
    case Receive => ReceiveStep(s)
    case Replay => ReplayStep(s)
    case Unclear => UnclearStep(s)
    case Reject => RejectStep(s)
    case Accept => AcceptStep(s)
    case AppendEarly => AppendEarlyStep(s)
    case ApplyPolicy => ApplyPolicyStep(s)
    case AskCheckpoint => AskStep(s)
    case Answer(decision) => AnswerStep(s, decision)
  }

  function RunStep(s: State, a: RunAction): (t: State)
    requires RunEnabled(s, a)
    ensures t.request == s.request
  {
    match a
    case StartExecution => StartExecutionStep(s)
    case SkipCancelled(inv) => SetProgress(s, inv, Returned(CancelledResult()))
    case ReconcileFound(inv, found) => ReconcileFoundStep(s, inv, found)
    case ReconcileNothing(inv) => SetProgress(s, inv, Attempting)
    case SaveAttempt(inv) => SaveAttemptStep(s, inv)
    case StartBody(inv) => StartBodyStep(s, inv)
    case RetryBody(inv, raw) => SetProgress(s, inv, Attempting)
    case EndBody(inv, raw, reconciled) => EndBodyStep(s, inv, raw, reconciled)
    case EndExecution => EndExecutionStep(s)
    case CollectNext => CollectNextStep(s)
  }

  function TurnStep(s: State, a: TurnAction): (t: State)
    requires TurnEnabled(s, a)
    ensures t.request == s.request
  {
    match a
    case ModelTurn(calls) => ModelTurnStep(s, calls)
    case TurnCheckpoint => TurnCheckpointStep(s)
    case LoopCheckpoint(feedback) => LoopCheckpointStep(s, feedback)
    case StartBatch => StartBatchStep(s)
    case AbandonBatch => s.(control := Looping)
    case EndBatch => EndBatchStep(s)
  }

  function StopStep(s: State, a: StopAction): (t: State)
    requires StopEnabled(s, a)
    ensures t.request == s.request
  {
    match a
    case RequestCancel => CancelStep(s)
    case PreserveCheckpoint => PreserveStep(s)
    case Finish(resumable) => Forget(s, FinalCheckpoint(s, resumable))
    case Crash => Forget(s, s.checkpoint)
    case RecoverLease => RecoverLeaseStep(s)
    case ResolveByHuman(inv, human) => ResolveStep(s, inv, human)
    case Resume(withInput) => ResumeStep(s, withInput)
  }

  function Step(s: State, a: Action): (t: State)
    requires Enabled(s, a)
    ensures t.request == s.request
  {
    match a
    case Gate(g) => GateStep(s, g)
    case Run(r) => RunStep(s, r)
    case Turn(t) => TurnStep(s, t)
    case Stop(x) => StopStep(s, x)
  }

  // ---------------------------------------------------------------- runs

  /** A new run: the spliced session history, the user's message, and the first checkpoint. */
  function Start(request: Request, history: seq<Message>): State {
    var first := UserMessage(|history|);
    State(request, |history|, map[], Checkpoint(history + [first], {}, [], ModelTurnPhase),
          Transcript(history + [first], [Row(0, first)], |history| + 1),
          Looping, {}, Context({}, [], {}), false, false, map[], [])
  }

  /** A run: each state follows from the one before it by an enabled action. */
  ghost predicate IsRun(states: seq<State>, actions: seq<Action>) {
    && |states| == |actions| + 1
    && forall k {:trigger actions[k]} :: 0 <= k < |actions| ==> Enabled(states[k], actions[k]) && states[k + 1] == Step(states[k], actions[k])
  }
}
