/** What every started tool body was allowed by, over whole runs. */
module ToolAuthorisation {
  import opened Common
  import opened ToolRecovery
  import opened ToolSafety

  // ---------------------------------------------------------------- reading the log

  predicate WritesWorkspace(c: Call) {
    c.effect.WorkspaceWrite? || c.effect.Destructive?
  }

  predicate MayWrite(request: Request, c: Call) {
    request.allowWrite || !WritesWorkspace(c)
  }

  /** The grant of a call in the batch that is open at the end of the log. */
  function GrantInBatch(log: seq<Event>, c: Call): Option<Grant> {
    if log == [] then None
    else
      var last := log[|log| - 1];
      if last.BatchOpened? || last.ProcessEnded? then None
      else if last.Allowed? && last.call == c then Some(last.grant)
      else GrantInBatch(log[..|log| - 1], c)
  }

  /** The batch that is open at the end of the log holds an answer that allows the call. */
  predicate AnswerAllows(log: seq<Event>, c: Call) {
    log != []
    && var last := log[|log| - 1];
       !last.BatchOpened? && !last.ProcessEnded?
       && ((last.Answered? && last.call == c && !last.answer.Deny?) || AnswerAllows(log[..|log| - 1], c))
  }

  /** Someone allowed the scope for the rest of the run, on a call that needs no confirmation. */
  predicate ScopeGranted(log: seq<Event>, scope: string) {
    log != []
    && var last := log[|log| - 1];
       !last.ProcessEnded?
       && ((last.Answered? && last.answer.AllowRun? && last.call.scope == scope && !NeedsConfirmation(last.call))
           || ScopeGranted(log[..|log| - 1], scope))
  }

  /** What has to stand in the log for a grant to be legitimate. */
  predicate Legitimate(request: Request, log: seq<Event>, c: Call, grant: Grant) {
    && MayWrite(request, c)
    && (NeedsConfirmation(c) ==> grant.ByAnswer?)
    && match grant
       case ByMode => !c.declared && AutoDecision(c.effect, request.mode) in {Some(AllowOnce), Some(AllowRun)}
       case ByScope => ScopeGranted(log, c.scope)
       case ByAnswer => AnswerAllows(log, c)
  }

  predicate EventFits(request: Request, before: seq<Event>, e: Event) {
    match e
    case Allowed(c, grant) => Legitimate(request, before, c, grant)
    case BodyStarted(c) => GrantInBatch(before, c).Some?
    case _ => true
  }

  predicate LogFits(request: Request, log: seq<Event>) {
    log == [] || (LogFits(request, log[..|log| - 1]) && EventFits(request, log[..|log| - 1], log[|log| - 1]))
  }

  // ---------------------------------------------------------------- invariant

  predicate AllGranted(log: seq<Event>, calls: seq<Call>) {
    forall k :: 0 <= k < |calls| ==> GrantInBatch(log, calls[k]).Some?
  }

  predicate Asking(s: State) {
    InCall(s) && (s.control.gate.stage.AskSaved? || s.control.gate.stage.AwaitingAnswer?)
  }

  predicate BatchGranted(s: State) {
    match s.control
    case Gating(g) => AllGranted(s.log, g.allowed) && (Asking(s) ==> MayWrite(s.request, Current(s)))
    case Executing(e) => forall i :: i in e.progress && i in s.issued ==> GrantInBatch(s.log, s.issued[i]).Some?
    case _ => true
  }

  predicate Authorised(s: State) {
    && LogFits(s.request, s.log) && BatchGranted(s)
    && forall scope :: scope in s.context.scopes ==> ScopeGranted(s.log, scope)
  }

  lemma ApproveKeeps(s: State, c: Call, grant: Grant)
    requires Authorised(s) && InCall(s) && c == Current(s) && Legitimate(s.request, s.log, c, grant)
    ensures Authorised(Approve(s, c, grant))
  {
  }

  lemma PolicyKeeps(s: State)
    requires Authorised(s) && AtStage(s, AtPolicy)
    ensures Authorised(ApplyPolicyStep(s))
  {
    hide LogFits;
    var c := Current(s);
    match PolicyVerdict(s.request, c, s.context.scopes)
    case Granted(grant) => ApproveKeeps(s, c, grant);
    case _ =>
  }

  lemma RecordKeeps(s: State, i: nat, record: Record, stage: Stage)
    requires Authorised(s) && InCall(s) && (stage.AskSaved? ==> MayWrite(s.request, Current(s)))
    requires stage.AwaitingAnswer? ==> Asking(s)
    ensures Authorised(SetStage(SetRecord(s, i, record), stage))
  {
  }

  /** Recording an answer; the effective answer adds a scope only when no confirmation is needed. */
  function Heard(s: State, c: Call, effective: Decision): State {
    s.(log := s.log + [Answered(c, effective)],
       context := if effective.AllowRun? then s.context.(scopes := s.context.scopes + {c.scope}) else s.context)
  }

  lemma HeardKeeps(s: State, c: Call, effective: Decision)
    requires Authorised(s) && Asking(s) && c == Current(s) && (effective.AllowRun? ==> !NeedsConfirmation(c))
    ensures Authorised(Heard(s, c, effective))
    ensures !effective.Deny? ==> Legitimate(s.request, Heard(s, c, effective).log, c, ByAnswer)
  {
  }

  lemma AnswerKeeps(s: State, decision: Decision)
    requires Authorised(s) && AtStage(s, AwaitingAnswer)
    ensures Authorised(AnswerStep(s, decision))
  {
    var c := Current(s);
    var effective := if NeedsConfirmation(c) && decision.AllowRun? then AllowOnce else decision;
    HeardKeeps(s, c, effective);
    var t := Heard(s, c, effective);
    if effective.Deny? {
      RecordKeeps(t, c.inv, RecordOf(t, c.inv).(status := Failed, result := Some(DeniedResult())), EarlyResult(DeniedResult()));
    } else {
      ApproveKeeps(t, c, ByAnswer);
    }
  }

  lemma AcceptKeeps(s: State)
    requires Coherent(s) && Authorised(s) && AtStoredCall(s)
    ensures Authorised(AcceptStep(s)) && Authorised(RejectStep(s))
  {
  }

  lemma UnclearKeeps(s: State)
    requires Authorised(s) && AtStage(s, AtCall)
    ensures Authorised(UnclearStep(s))
  {
  }

  lemma GateKeepsAuthorised(s: State, a: GateAction)
    requires Coherent(s) && Authorised(s) && GateEnabled(s, a)
    ensures Authorised(GateStep(s, a))
  {
    hide Registered, LogFits, ResultMessages, PolicyVerdict, Append, DropResults;
    match a
    case ApplyPolicy => PolicyKeeps(s);
    case Answer(decision) => AnswerKeeps(s, decision);
    case Reject => AcceptKeeps(s);
    case Accept => AcceptKeeps(s);
    case Unclear => UnclearKeeps(s);
    case _ =>
  }

  lemma StartExecutionKeeps(s: State)
    requires Coherent(s) && Authorised(s) && RunEnabled(s, StartExecution)
    ensures Authorised(StartExecutionStep(s))
  {
  }

  lemma StartBodyKeeps(s: State, i: nat)
    requires Coherent(s) && Authorised(s) && ProgressOf(s, i) == Some(AttemptSaved) && i in s.issued
    ensures Authorised(StartBodyStep(s, i))
  {
  }

  lemma RunKeepsAuthorised(s: State, a: RunAction)
    requires Coherent(s) && Authorised(s) && RunEnabled(s, a)
    ensures Authorised(RunStep(s, a))
  {
    match a
    case StartExecution => StartExecutionKeeps(s);
    case StartBody(i) => StartBodyKeeps(s, i);
    case _ =>
  }

  /** A step around a batch never adds a scope, and never moves into the middle of a batch. */
  predicate AroundBatch(s: State, t: State, event: Option<Event>) {
    && t.request == s.request && t.issued == s.issued
    && t.context.scopes <= s.context.scopes
    && (event.Some? && event.value.ProcessEnded? ==> t.context.scopes == {})
    && (t.control.Gating? || t.control.Executing? ==>
          || (t.control == s.control && event.None?)
          || (t.control.Gating? && t.control.gate.allowed == [] && t.control.gate.stage.AtCall?))
  }

  lemma AroundBatchKeeps(s: State, t: State, event: Option<Event>)
    requires Authorised(s) && AroundBatch(s, t, event)
    requires event.Some? ==> !event.value.Allowed? && !event.value.BodyStarted?
    requires event.None? ==> t.log == s.log
    requires event.Some? ==> t.log == s.log + [event.value]
    ensures Authorised(t)
  {
  }

  lemma TurnKeepsAuthorised(s: State, a: TurnAction)
    requires Authorised(s) && TurnEnabled(s, a)
    ensures Authorised(TurnStep(s, a))
  {
    if !a.ModelTurn? {
      var t := TurnStep(s, a);
      AroundBatchKeeps(s, t, if t.log == s.log then None else Some(BatchOpened));
    }
  }

  lemma StopKeepsAuthorised(s: State, a: StopAction)
    requires Authorised(s) && StopEnabled(s, a)
    ensures Authorised(StopStep(s, a))
  {
  }

  lemma StepKeepsAuthorised(s: State, a: Action)
    requires Coherent(s) && Authorised(s) && Enabled(s, a)
    ensures Authorised(Step(s, a))
  {
    hide Coherent, Authorised, GateStep, RunStep, TurnStep, StopStep, GateEnabled, RunEnabled, TurnEnabled, StopEnabled;
    match a
    case Gate(g) => GateKeepsAuthorised(s, g);
    case Run(r) => RunKeepsAuthorised(s, r);
    case Turn(t) => TurnKeepsAuthorised(s, t);
    case Stop(x) => StopKeepsAuthorised(s, x);
  }

  lemma {:induction false} AuthorisedThroughout(states: seq<State>, actions: seq<Action>, k: nat)
    requires IsRun(states, actions) && Coherent(states[0]) && Authorised(states[0]) && k < |states|
    ensures Authorised(states[k]) && states[k].request == states[0].request
  {
    hide Step, Enabled, Coherent, Authorised;
    if k > 0 {
      AuthorisedThroughout(states, actions, k - 1);
      CoherentThroughout(states, actions, k - 1);
      StepKeepsAuthorised(states[k - 1], actions[k - 1]);
      assert states[k - 1 + 1] == Step(states[k - 1], actions[k - 1]);
    }
  }

  /** A grant that stands in the log was legitimate, and still is. */
  lemma {:induction false} GrantIsLegitimate(request: Request, log: seq<Event>, c: Call)
    requires LogFits(request, log) && GrantInBatch(log, c).Some?
    ensures Legitimate(request, log, c, GrantInBatch(log, c).value)
  {
    var before := log[..|log| - 1];
    if !(log[|log| - 1].Allowed? && log[|log| - 1].call == c) {
      GrantIsLegitimate(request, before, c);
    }
  }

  lemma {:induction false} LogFitsPrefix(request: Request, log: seq<Event>, k: nat)
    requires LogFits(request, log) && k < |log|
    ensures LogFits(request, log[..k]) && EventFits(request, log[..k], log[k])
  {
    if k < |log| - 1 {
      LogFitsPrefix(request, log[..|log| - 1], k);
      assert log[..|log| - 1][..k] == log[..k];
    }
  }

  lemma StartIsAuthorised(request: Request, history: seq<Message>)
    ensures Authorised(Start(request, history))
  {
  }

  /** Over whole runs, every started body was allowed earlier in the same batch by a legitimate
      grant: an explicit answer about that very call when it is destructive or needs confirmation,
      and never a write effect without write permission. */
  lemma StartedBodiesWereAllowed(request: Request, history: seq<Message>, states: seq<State>, actions: seq<Action>,
                                 k: nat, j: nat)
    requires IsRun(states, actions) && states[0] == Start(request, history) && k < |states|
    requires j < |states[k].log| && states[k].log[j].BodyStarted?
    ensures var before, c := states[k].log[..j], states[k].log[j].call;
            GrantInBatch(before, c).Some? && Legitimate(request, before, c, GrantInBatch(before, c).value)
  {
    hide IsRun, Coherent, BoundFor, BatchGranted, LogFits, Legitimate, GrantInBatch;
    StartFits(request, history, 0);
    StartIsAuthorised(request, history);
    AuthorisedThroughout(states, actions, k);
    LogFitsPrefix(request, states[k].log, j);
    GrantIsLegitimate(request, states[k].log[..j], states[k].log[j].call);
  }
}
