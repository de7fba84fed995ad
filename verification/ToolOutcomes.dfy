/** What the steps of tool execution make of what a tool, its reconciler, the policy and a human say:
    stated on the records and stages before and after a step. */
module ToolOutcomes {
  import opened Common
  import opened ToolRecovery
  import opened ToolSafety

  // ---------------------------------------------------------------- the end of an attempt

  /** A reconciler is asked about an attempt that ran out of time or was cancelled. */
  predicate Consulted(c: Call, raw: Result) {
    raw.isError && (raw.code.TimeoutCode? || raw.code.CancelledCode?) && c.policy.Reconcile?
  }

  /** What was reported in the end: by the tool, or by a reconciler that found something. */
  function Said(c: Call, raw: Result, reconciled: Option<Result>): Result {
    if Consulted(c, raw) && reconciled.Some? then reconciled.value else raw
  }

  /** Nobody can say whether the attempt took effect. */
  predicate Doubtful(c: Call, raw: Result, reconciled: Option<Result>, cancelled: bool) {
    var said := Said(c, raw, reconciled);
    || said.code.IndeterminateCode?
    || (Consulted(c, raw) && reconciled.Some? && said.isError)
    || (c.policy.Never? && said.isError
        && (said.code.TimeoutCode? || said.code.CancelledCode? || (said.code.NoCode? && cancelled)))
  }

  /** The code on record: a missing one of an error is filled in, and an unclear outcome gets its own. */
  function CodeKept(said: Result, doubtful: bool, cancelled: bool): Code {
    if doubtful then IndeterminateCode
    else if said.isError && said.code.NoCode? then (if cancelled then CancelledCode else ToolFailedCode)
    else said.code
  }

  /** What the end of an attempt puts on record, and hands to the batch. */
  predicate Recorded(s: State, t: State, inv: nat, said: Result, doubtful: bool) {
    && inv in t.store && t.store[inv].result.Some?
    && var kept := t.store[inv].result.value;
       var status := t.store[inv].status;
       && kept.isError == said.isError && kept.content == said.content
       && kept.code == CodeKept(said, doubtful, s.cancelled)
       && (status.Indeterminate? <==> doubtful)
       && (status.Succeeded? <==> !said.isError && !said.code.CancelledCode? && !said.code.IndeterminateCode?)
       && (status.Cancelled? <==> kept.code.CancelledCode?)
       && (status.Failed? <==> said.isError && !kept.code.CancelledCode? && !doubtful)
       && ProgressOf(t, inv) == Some(Returned(kept))
       && (t.needsHuman <==> s.needsHuman || doubtful)
       && (doubtful ==> !kept.retryable)
  }

  lemma EndingRecords(s: State, inv: nat, raw: Result, reconciled: Option<Result>)
    requires InBody(s, inv)
    ensures Recorded(s, EndBodyStep(s, inv, raw, reconciled), inv, Said(s.issued[inv], raw, reconciled),
                     Doubtful(s.issued[inv], raw, reconciled, s.cancelled))
  {
  }

  /** The end of an attempt puts on record, and hands to the batch, what was reported: whether it is an
      error and what it says never change, and the status follows from these and from the code. */
  lemma AttemptIsRecorded(s: State, inv: nat, raw: Result, reconciled: Option<Result>)
    requires Enabled(s, Run(EndBody(inv, raw, reconciled)))
    ensures Recorded(s, Step(s, Run(EndBody(inv, raw, reconciled))), inv, Said(s.issued[inv], raw, reconciled),
                     Doubtful(s.issued[inv], raw, reconciled, s.cancelled))
  {
    hide Recorded, Said, Doubtful, EndBodyStep;
    EndingRecords(s, inv, raw, reconciled);
  }

  /** A step touches no record but that of its invocation. */
  lemma AttemptSparesOthers(s: State, inv: nat, raw: Result, reconciled: Option<Result>, other: nat)
    requires Enabled(s, Run(EndBody(inv, raw, reconciled))) && other != inv
    ensures var t := Step(s, Run(EndBody(inv, raw, reconciled)));
            (other in t.store <==> other in s.store) && (other in s.store ==> t.store[other] == s.store[other])
  {
  }

  /** What a reconciler finds before an attempt goes on record as it is: a success, or an unclear outcome. */
  lemma ReconciledIsRecorded(s: State, inv: nat, found: Result)
    requires Enabled(s, Run(ReconcileFound(inv, found)))
    ensures var t := Step(s, Run(ReconcileFound(inv, found)));
            && inv in t.store && t.store[inv].result == Some(found)
            && (t.store[inv].status.Succeeded? <==> !found.isError) && (t.store[inv].status.Indeterminate? <==> found.isError)
            && (t.needsHuman <==> s.needsHuman || found.isError) && ProgressOf(t, inv) == Some(Returned(found))
  {
  }

  /** A harvested result is said and its call completed unless a human or a resume has to see to it. */
  lemma HarvestedExactlyWhen(s: State)
    requires Coherent(s) && Enabled(s, Run(CollectNext))
    ensures var c := s.control.harvest.allowed[s.control.harvest.next];
            var t := Step(s, Run(CollectNext));
            && c.inv in s.control.harvest.outcomes && c.inv in s.store
            && var r := s.control.harvest.outcomes[c.inv];
               var left := s.store[c.inv].status.Indeterminate? || (s.cancelled && r.isError);
               && (c.inv in t.completed <==> !left)
               && t.transcript.messages
                  == s.transcript.messages + if left then [] else [ToolMessage(s.transcript.nextId, Some(c.inv), c.providerId, r)]
  {
    var h := s.control.harvest;
    assert HarvestReady(s.store, s.completed, s.cancelled, h.outcomes, h.allowed[h.next]);
    hide Coherent, InsertRow;
  }

  /** Another attempt follows, exactly, on an error that the tool calls retryable, of a call that is safe
      to repeat, while nobody cancels. */
  lemma RepeatedExactlyWhen(s: State, inv: nat, raw: Result)
    ensures Enabled(s, Run(RetryBody(inv, raw)))
       <==> InBody(s, inv) && s.issued[inv].policy.Safe? && raw.isError && raw.retryable && !s.cancelled
  {
  }

  /** What becomes of a stored call, exactly: a finished one is replayed, an indeterminate one and a
      never-replayed one that was running go to a human, and every other one is run again. */
  lemma ExaminedExactly(s: State)
    requires AtStoredCall(s)
    ensures var r, c := CurrentRecord(s), Current(s);
            var finished := (r.status.Succeeded? || r.status.Failed?) && r.result.Some?;
            var unclear := r.status.Indeterminate? || (r.status.Running? && c.policy.Never?);
            && (Enabled(s, Gate(Replay)) <==> finished) && (Enabled(s, Gate(Unclear)) <==> unclear)
            && (Enabled(s, Gate(Accept)) <==> !finished && !unclear && c.validArguments)
            && (Enabled(s, Gate(Reject)) <==> !finished && !unclear && !c.validArguments)
  {
  }

  /** A call that goes to a human stays out of the completed set and ends the run after its batch. */
  lemma UnclearIsLeftToHuman(s: State)
    requires Coherent(s) && Enabled(s, Gate(Unclear))
    ensures var t := Step(s, Gate(Unclear));
            && StatusOf(t, Current(s).inv) == Some(Indeterminate) && t.needsHuman && Current(s).inv !in t.completed
            && t.control.Gating? && t.control.gate.allowed == s.control.gate.allowed
  {
    hide RecordsFit, Registered, DropResults, ReadyToRun;
  }

  // ---------------------------------------------------------------- human decisions

  /** A human decision settles an unclear outcome as a success or as an error, or forgets the attempt
      so that the call may be run again. */
  lemma DecisionIsRecorded(s: State, inv: nat, human: HumanDecision)
    requires Enabled(s, Stop(ResolveByHuman(inv, human)))
    ensures var t := Step(s, Stop(ResolveByHuman(inv, human)));
            && inv in t.store
            && (human.MarkSucceeded? <==> t.store[inv].status.Succeeded? && t.store[inv].result.Some? && !t.store[inv].result.value.isError)
            && (human.Skip? <==> t.store[inv].status.Failed? && t.store[inv].result.Some? && t.store[inv].result.value.isError
                                 && t.store[inv].result.value.code.OutcomeSkippedCode?)
            && (human.Retry? <==> t.store[inv].result.None?)
            && (forall other :: other != inv && other in s.store ==> other in t.store && t.store[other] == s.store[other])
  {
    hide RecoveredStore;
  }

  /** After a decision the call is replayed as it was settled, or may be run again. */
  lemma DecisionLeadsOn(s: State, inv: nat, human: HumanDecision, c: Call)
    requires Enabled(s, Stop(ResolveByHuman(inv, human)))
    ensures var r := Step(s, Stop(ResolveByHuman(inv, human))).store[inv];
            (Settled(r) <==> !human.Retry?) && !Unrepeatable(c, r) && !Interrupted(r)
  {
    hide RecoveredStore;
  }

  // ---------------------------------------------------------------- a settled call is final

  predicate SettledAt(s: State, i: nat) {
    i in s.issued && s.issued[i].known && i in s.store && Settled(s.store[i])
  }

  ghost predicate StaysSettled(s: State, t: State, i: nat) {
    i in s.store && i in t.issued && t.issued[i].known && i in t.store && t.store[i] == s.store[i] && Starts(t.log, i) == Starts(s.log, i)
  }

  /** A settled call is examined only to be replayed. */
  lemma SettledIsPassed(s: State, i: nat)
    requires Coherent(s) && InCall(s) && SettledAt(s, i) && Current(s).inv == i
    ensures Current(s).known && (s.control.gate.stage.AtCall? || s.control.gate.stage.EarlyResult?)
  {
    hide RecordsFit, ReadyToRun;
  }

  lemma ExaminingKeepsRecords(s: State, a: GateAction, i: nat)
    requires GateEnabled(s, a) && SettledAt(s, i) && InCall(s) && !a.ApplyPolicy? && !a.Answer?
    requires Current(s).inv == i ==> Current(s).known && (s.control.gate.stage.AtCall? || s.control.gate.stage.EarlyResult?)
    ensures i in GateStep(s, a).store && GateStep(s, a).store[i] == s.store[i]
  {
    hide InsertRow, DropResults, Append, Replayed, RecordOf;
  }

  lemma VerdictKeepsRecord(s: State, i: nat)
    requires AtStage(s, AtPolicy) && Current(s).inv != i && i in s.store
    ensures i in ApplyPolicyStep(s).store && ApplyPolicyStep(s).store[i] == s.store[i]
  {
    hide PolicyVerdict, RecordOf;
  }

  lemma AnswerKeepsRecord(s: State, decision: Decision, i: nat)
    requires AtStage(s, AwaitingAnswer) && Current(s).inv != i && i in s.store
    ensures i in AnswerStep(s, decision).store && AnswerStep(s, decision).store[i] == s.store[i]
  {
    hide NeedsConfirmation, RecordOf;
  }

  lemma GateKeepsSettled(s: State, a: GateAction, i: nat)
    requires Coherent(s) && GateEnabled(s, a) && SettledAt(s, i)
    ensures StaysSettled(s, GateStep(s, a), i)
  {
    GateEffects(s, a);
    SilentLog(s.log, GateStep(s, a).log, i);
    assert GateStep(s, a).issued == s.issued;
    if Current(s).inv == i { SettledIsPassed(s, i); }
    hide Coherent, Starts, ApplyPolicyStep, AnswerStep, GateEffect, UnknownStep, ReceiveStep, ReplayStep, UnclearStep, RejectStep, AcceptStep, AppendEarlyStep, AskStep;
    match a
    case ApplyPolicy => VerdictKeepsRecord(s, i);
    case Answer(decision) => AnswerKeepsRecord(s, decision, i);
    case _ => ExaminingKeepsRecords(s, a, i);
  }

  /** Nothing of a settled call is under way. */
  lemma SettledIsIdle(s: State, i: nat)
    requires Coherent(s) && SettledAt(s, i) && ProgressOf(s, i).Some?
    ensures ProgressOf(s, i).value.Returned?
  {
    hide RecordsFit, Registered;
  }

  lemma RunKeepsSettled(s: State, a: RunAction, i: nat)
    requires Coherent(s) && RunEnabled(s, a) && SettledAt(s, i)
    ensures StaysSettled(s, RunStep(s, a), i)
  {
    hide Settle, TerminalStatus, TerminalResult, Uncertain, Coherent, Starts, MustReconcile, Settled, StartExecutionStep, EndExecutionStep, CollectNextStep;
    if ProgressOf(s, i).Some? { SettledIsIdle(s, i); }
    if a.StartExecution? || a.EndExecution? || a.CollectNext? {
      SwitchKeepsRecords(s, a);
    } else if a.StartBody? {
      OtherBodyStarts(s, a.inv, i);
    }
  }

  lemma SwitchKeepsRecords(s: State, a: RunAction)
    requires RunEnabled(s, a) && (a.StartExecution? || a.EndExecution? || a.CollectNext?)
    ensures RunStep(s, a).store == s.store && RunStep(s, a).log == s.log && RunStep(s, a).issued == s.issued
  {
    hide InsertRow, Append, Outcomes, IssuedBy, Incomplete;
  }

  lemma TurnKeepsSettled(s: State, a: TurnAction, i: nat)
    requires TurnEnabled(s, a) && SettledAt(s, i)
    ensures StaysSettled(s, TurnStep(s, a), i)
  {
    if a.ModelTurn? { FreshCalls(s, a.calls); }
    Observe(s.log, BatchOpened, i);
    hide MayTakeTurn, IssuedBy, Append, Unfinished, Starts, Settled;
  }

  lemma StopKeepsSettled(s: State, a: StopAction, i: nat)
    requires StopEnabled(s, a) && SettledAt(s, i)
    ensures StaysSettled(s, StopStep(s, a), i)
  {
    hide Starts, Preserved, FinalCheckpoint, Unsaved, Append, Unfinished;
    match a
    case Finish(resumable) => Observe(s.log, ProcessEnded(Unsaved(s, FinalCheckpoint(s, resumable))), i);
    case Crash => Observe(s.log, ProcessEnded(Unsaved(s, s.checkpoint)), i);
    case ResolveByHuman(j, human) => Observe(s.log, HumanResolved(j, human), i);
    case _ =>
  }

  lemma StepKeepsSettled(s: State, a: Action, i: nat)
    requires Coherent(s) && Enabled(s, a) && SettledAt(s, i)
    ensures StaysSettled(s, Step(s, a), i)
  {
    hide Coherent, Starts, GateStep, RunStep, TurnStep, StopStep, GateEnabled, RunEnabled, TurnEnabled, StopEnabled, SettledAt;
    match a
    case Gate(g) => GateKeepsSettled(s, g, i);
    case Run(r) => RunKeepsSettled(s, r, i);
    case Turn(t) => TurnKeepsSettled(s, t, i);
    case Stop(x) => StopKeepsSettled(s, x, i);
  }

  /** Over every run: once a call to a known tool has succeeded or failed, or a human has settled it, its
      record never changes again and its body is never started again. */
  lemma {:induction false} SettledIsFinal(states: seq<State>, actions: seq<Action>, from: nat, k: nat, i: nat)
    requires IsRun(states, actions) && Coherent(states[0]) && from <= k < |states| && SettledAt(states[from], i)
    ensures StaysSettled(states[from], states[k], i)
  {
    hide Step, Enabled, Coherent, Settled, Starts;
    if k > from {
      SettledIsFinal(states, actions, from, k - 1, i);
      CoherentThroughout(states, actions, k - 1);
      StepKeepsSettled(states[k - 1], actions[k - 1], i);
      assert states[k - 1 + 1] == Step(states[k - 1], actions[k - 1]);
    }
  }

  // ---------------------------------------------------------------- the approval gate

  /** Nobody but a human may let the call pass. */
  predicate Forced(c: Call) {
    c.confirms || c.declared || c.effect.Destructive?
  }

  predicate Harmless(c: Call) {
    c.effect.Pure? || c.effect.WorkspaceRead?
  }

  predicate Forbidden(s: State, c: Call) {
    !s.request.allowWrite && (c.effect.WorkspaceWrite? || c.effect.Destructive?)
  }

  /** The scope was allowed for the run, and the call needs no confirmation of its own. */
  predicate InScope(s: State, c: Call) {
    !c.confirms && !c.effect.Destructive? && c.scope in s.context.scopes
  }

  /** What a verdict does to the batch. */
  predicate VerdictDone(s: State, t: State, verdict: Verdict) {
    InCall(s) && var c := Current(s);
    && t.control.Gating? && c.inv in t.store && t.context == s.context
    && match verdict
       case WriteRefused => t.control.gate == s.control.gate.(stage := EarlyResult(WriteRefusedResult())) && t.log == s.log && t.store[c.inv].status.Failed?
       case Refused => t.control.gate == s.control.gate.(stage := EarlyResult(DeniedResult())) && t.log == s.log && t.store[c.inv].status.Failed?
       case Granted(grant) =>
         t.control.gate == s.control.gate.(pos := s.control.gate.pos + 1, stage := AtCall, allowed := s.control.gate.allowed + [c])
         && t.log == s.log + [Allowed(c, grant)] && t.store[c.inv].status.Approved?
       case MustAsk => t.control.gate == s.control.gate.(stage := AskSaved) && t.log == s.log && t.store[c.inv].status.WaitingApproval?
  }

  lemma PolicyIsDone(s: State)
    requires AtStage(s, AtPolicy)
    ensures VerdictDone(s, ApplyPolicyStep(s), PolicyVerdict(s.request, Current(s), s.context.scopes))
  {
    hide PolicyVerdict, RecordOf;
  }

  /** The gate, exactly: a write without permission is refused; without anybody to ask, everything that
      is forced or not harmless is refused; what is not forced passes when it is harmless or the mode is
      automatic; the rest passes by its scope, or is asked about. */
  lemma GateDecides(s: State)
    requires Enabled(s, Gate(ApplyPolicy))
    ensures var c := Current(s);
            var refused := s.request.mode.NeverAsk? && (Forced(c) || !Harmless(c));
            var byMode := !Forced(c) && (Harmless(c) || s.request.mode.Auto?);
            VerdictDone(s, Step(s, Gate(ApplyPolicy)),
                        if Forbidden(s, c) then WriteRefused else if refused then Refused
                        else if byMode then Granted(ByMode) else if InScope(s, c) then Granted(ByScope) else MustAsk)
  {
    hide VerdictDone, ApplyPolicyStep, PolicyVerdict;
    VerdictMeans(s.request, Current(s), s.context.scopes);
    PolicyIsDone(s);
  }

  lemma VerdictMeans(request: Request, c: Call, scopes: set<string>)
    ensures var forbidden := !request.allowWrite && (c.effect.WorkspaceWrite? || c.effect.Destructive?);
            var refused := !forbidden && request.mode.NeverAsk? && (Forced(c) || !Harmless(c));
            var byMode := !forbidden && !Forced(c) && (Harmless(c) || request.mode.Auto?);
            var inScope := !c.confirms && !c.effect.Destructive? && c.scope in scopes;
            PolicyVerdict(request, c, scopes)
            == if forbidden then WriteRefused else if refused then Refused else if byMode then Granted(ByMode)
               else if inScope then Granted(ByScope) else MustAsk
  {
  }

  /** What an answer does: it fails the call or allows it, and opens its scope if it may. */
  ghost predicate AnswerDone(s: State, t: State, decision: Decision) {
    InCall(s) && var c := Current(s);
    && t.control.Gating? && c.inv in t.store
    && t.control.gate == (if decision.Deny? then s.control.gate.(stage := EarlyResult(DeniedResult()))
                          else s.control.gate.(pos := s.control.gate.pos + 1, stage := AtCall, allowed := s.control.gate.allowed + [c]))
    && (if decision.Deny? then t.store[c.inv].status.Failed? else t.store[c.inv].status.Approved?)
    && (forall scope :: scope in t.context.scopes <==>
          scope in s.context.scopes || (decision.AllowRun? && !c.confirms && !c.effect.Destructive? && scope == c.scope))
  }

  lemma AnswerIsDone(s: State, decision: Decision)
    requires AtStage(s, AwaitingAnswer)
    ensures AnswerDone(s, AnswerStep(s, decision), decision)
  {
    hide RecordOf;
  }

  /** The answer of a human, exactly: a denial fails the call; anything else allows it; and only
      allowing for the run a call that needs no confirmation opens its scope. */
  lemma AnswerDecides(s: State, decision: Decision)
    requires Enabled(s, Gate(Answer(decision)))
    ensures AnswerDone(s, Step(s, Gate(Answer(decision))), decision)
  {
    hide AnswerDone, AnswerStep;
    AnswerIsDone(s, decision);
  }
}
