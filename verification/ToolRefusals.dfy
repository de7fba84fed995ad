/** Calls to tools that do not exist.  Each examination of such a call adds a refusal to the
    transcript without looking for one, so that everything depends on whether it is examined again
    while a refusal stands. */
module ToolRefusals {
  import opened Common
  import opened ToolRecovery
  import opened ToolSafety
  import opened ToolTranscript
  import opened ToolLosses

  predicate Among(calls: seq<Call>, inv: nat) {
    exists k :: 0 <= k < |calls| && calls[k].inv == inv
  }

  predicate Refused(messages: seq<Message>, inv: nat) {
    ResultsFor(messages, inv) != []
  }

  /** The checkpoint holds the refusal of a call and yet has it examined again. */
  predicate Orphans(cp: Checkpoint, inv: nat) {
    Refused(cp.messages, inv) && inv !in cp.completed && Among(cp.pending, inv)
  }

  /** The calls that the batch in progress, or the one to come, is about. */
  function InHand(control: Control): seq<Call> {
    match control
    case TurnSaved(calls) => calls
    case BatchReady(calls) => calls
    case Gating(g) => g.pending
    case Executing(e) => e.pending
    case Collecting(h) => h.pending
    case _ => []
  }

  predicate Awaited(s: State, inv: nat) {
    Among(InHand(s.control), inv) || Among(s.context.pending, inv) || Among(s.checkpoint.pending, inv)
  }

  predicate Unknowable(s: State, inv: nat) {
    inv in s.issued && !s.issued[inv].known
  }

  /** One refusal at most, and a call that was refused is completed or never looked at again. */
  predicate RefusedOnce(s: State, inv: nat) {
    && |ResultsFor(s.transcript.messages, inv)| <= 1
    && (Refused(s.transcript.messages, inv) && inv !in s.completed ==> !Awaited(s, inv))
    && !Orphans(s.checkpoint, inv)
  }

  predicate Fine(s: State, inv: nat) {
    Unknowable(s, inv) ==> RefusedOnce(s, inv)
  }

  // ---------------------------------------------------------------- what the steps say

  predicate Examines(s: State, a: Action, inv: nat) {
    a == Gate(AppendEarly) && InCall(s) && Current(s).inv == inv
  }

  lemma CurrentIsIssued(s: State)
    requires Coherent(s) && InCall(s)
    ensures Current(s).inv in s.issued && s.issued[Current(s).inv] == Current(s) && Current(s).inv !in s.completed
  {
  }

  lemma ReplaySpares(s: State, inv: nat)
    requires Coherent(s) && Faithful(s) && AtStoredCall(s) && Settled(CurrentRecord(s)) && Current(s).inv != inv
    ensures ResultsFor(ReplayStep(s).transcript.messages, inv) == ResultsFor(s.transcript.messages, inv)
  {
    hide Faithful, ResultMessages, InsertRow;
    var c := Current(s);
    PresentResult(s);
    if ResultsFor(s.transcript.messages, c.inv) == [] {
      DropNothing(s.transcript, c);
      ResultsConcat(s.transcript.messages, [ToolMessage(s.transcript.nextId, Some(c.inv), c.providerId, CurrentRecord(s).result.value)], inv);
    }
    hide Coherent, Anchored, ResultPresent, DropResults;
  }

  lemma EarlyAddsOne(s: State, inv: nat)
    requires AtEarlyResult(s)
    ensures |ResultsFor(AppendEarlyStep(s).transcript.messages, inv)|
         == |ResultsFor(s.transcript.messages, inv)| + if Current(s).inv == inv then 1 else 0
  {
    var c := Current(s);
    ResultsConcat(s.transcript.messages, [ToolMessage(s.transcript.nextId, Some(c.inv), c.providerId, s.control.gate.stage.result)], inv);
  }

  lemma EarlySpares(s: State, inv: nat)
    requires AtEarlyResult(s) && Current(s).inv != inv
    ensures ResultsFor(AppendEarlyStep(s).transcript.messages, inv) == ResultsFor(s.transcript.messages, inv)
  {
    var c := Current(s);
    ResultsConcat(s.transcript.messages, [ToolMessage(s.transcript.nextId, Some(c.inv), c.providerId, s.control.gate.stage.result)], inv);
  }

  lemma GateAddsOne(s: State, a: GateAction, inv: nat)
    requires Coherent(s) && Faithful(s) && GateEnabled(s, a) && Unknowable(s, inv)
    ensures |ResultsFor(GateStep(s, a).transcript.messages, inv)|
         == |ResultsFor(s.transcript.messages, inv)| + if Examines(s, Gate(a), inv) then 1 else 0
  {
    hide Coherent, Faithful, ResultsFor, DropResults, Append, Settled, Unrepeatable, ApplyPolicyStep, AnswerStep, Replayed;
    match a
    case Replay =>
      CurrentIsIssued(s);
      ReplaySpares(s, inv);
    case AppendEarly => EarlyAddsOne(s, inv);
    case ApplyPolicy => VerdictSaysNothing(s, a);
    case Answer(_) => VerdictSaysNothing(s, a);
    case AskCheckpoint =>
    case _ => ExaminingSaysNothing(s, a);
  }

  lemma CollectSpares(s: State, inv: nat)
    requires Coherent(s) && RunEnabled(s, CollectNext) && Unknowable(s, inv)
    ensures ResultsFor(CollectNextStep(s).transcript.messages, inv) == ResultsFor(s.transcript.messages, inv)
  {
    var h := s.control.harvest;
    var c := h.allowed[h.next];
    assert HarvestReady(s.store, s.completed, s.cancelled, h.outcomes, c);
    assert c == s.issued[c.inv];
    hide Coherent, InsertRow, HarvestReady, Incomplete;
    ResultsConcat(s.transcript.messages, [ToolMessage(s.transcript.nextId, Some(c.inv), c.providerId, h.outcomes[c.inv])], inv);
  }

  lemma OtherMessageSpares(t: Transcript, m: Message, inv: nat)
    requires !m.ToolMessage?
    ensures ResultsFor(Append(t, m).messages, inv) == ResultsFor(t.messages, inv)
  {
    ResultsConcat(t.messages, [m], inv);
  }

  // ---------------------------------------------------------------- pending calls

  lemma UnfinishedAmong(calls: seq<Call>, completed: set<nat>, inv: nat)
    ensures Among(Unfinished(calls, completed), inv) ==> Among(calls, inv)
  {
  }

  lemma {:induction false} StillUnfinished(calls: seq<Call>, completed: set<nat>, inv: nat)
    requires inv !in completed && Among(calls, inv)
    ensures Among(Unfinished(calls, completed), inv)
  {
    var rest := Unfinished(calls[1..], completed);
    if calls[0].inv == inv {
      assert Unfinished(calls, completed)[0].inv == inv;
    } else {
      var k :| 0 <= k < |calls| && calls[k].inv == inv;
      assert calls[1..][k - 1].inv == inv;
      StillUnfinished(calls[1..], completed, inv);
      AmongLater(rest, calls[0], inv);
    }
  }

  lemma AmongLater(rest: seq<Call>, c: Call, inv: nat)
    requires Among(rest, inv)
    ensures Among([c] + rest, inv)
  {
    var j :| 0 <= j < |rest| && rest[j].inv == inv;
    assert ([c] + rest)[j + 1].inv == inv;
  }

  // ---------------------------------------------------------------- what every step keeps

  /** Nothing is said about the call, no new examination of it is in sight, and a new checkpoint
      holds what is in memory. */
  predicate Spares(s: State, t: State, inv: nat) {
    && ResultsFor(t.transcript.messages, inv) == ResultsFor(s.transcript.messages, inv)
    && s.completed <= t.completed && (Awaited(t, inv) ==> Awaited(s, inv))
    && (t.checkpoint == s.checkpoint
        || (t.checkpoint.messages == t.transcript.messages && t.checkpoint.completed == t.completed))
  }

  lemma SparingKeepsOnce(s: State, t: State, inv: nat)
    requires Spares(s, t, inv) && RefusedOnce(s, inv)
    ensures RefusedOnce(t, inv)
  {
    hide ResultsFor;
  }

  /** The verdict on a call leaves the batch as it is. */
  predicate SameBatch(s: State, t: State)
    requires s.control.Gating?
  {
    InHand(t.control) == s.control.gate.pending && t.context.pending == s.context.pending && t.completed == s.completed
  }

  lemma PolicyKeepsBatch(s: State)
    requires AtStage(s, AtPolicy)
    ensures SameBatch(s, ApplyPolicyStep(s))
  {
    hide PolicyVerdict, RecordOf;
  }

  lemma AnswerKeepsBatch(s: State, decision: Decision)
    requires AtStage(s, AwaitingAnswer)
    ensures SameBatch(s, AnswerStep(s, decision))
  {
    hide NeedsConfirmation, RecordOf;
  }

  lemma GateSpares(s: State, a: GateAction, inv: nat)
    requires Coherent(s) && Faithful(s) && GateEnabled(s, a) && Unknowable(s, inv) && !Examines(s, Gate(a), inv)
    ensures Spares(s, GateStep(s, a), inv)
  {
    hide Coherent, Faithful, ResultsFor, DropResults, Append, Settled, Unrepeatable, ApplyPolicyStep, AnswerStep, Replayed, RecordOf;
    match a
    case Replay =>
      CurrentIsIssued(s);
      ReplaySpares(s, inv);
    case AppendEarly => EarlySpares(s, inv);
    case ApplyPolicy =>
      VerdictSaysNothing(s, a);
      PolicyKeepsBatch(s);
    case Answer(decision) =>
      VerdictSaysNothing(s, a);
      AnswerKeepsBatch(s, decision);
    case AskCheckpoint =>
    case _ => ExaminingSaysNothing(s, a);
  }

  lemma ExaminingKeepsOnce(s: State, inv: nat)
    requires Coherent(s) && Examines(s, Gate(AppendEarly), inv) && AtEarlyResult(s) && RefusedOnce(s, inv)
    ensures RefusedOnce(AppendEarlyStep(s), inv)
  {
    CurrentIsIssued(s);
    assert Among(InHand(s.control), inv) by { assert s.control.gate.pending[s.control.gate.pos].inv == inv; }
    EarlyAddsOne(s, inv);
    hide Coherent, ResultsFor, Append;
  }

  lemma GateKeepsFine(s: State, a: GateAction, inv: nat)
    requires Coherent(s) && Faithful(s) && GateEnabled(s, a) && Fine(s, inv)
    ensures Fine(GateStep(s, a), inv)
  {
    GateEffects(s, a);
    if Unknowable(s, inv) {
      if Examines(s, Gate(a), inv) {
        ExaminingKeepsOnce(s, inv);
      } else {
        GateSpares(s, a, inv);
        SparingKeepsOnce(s, GateStep(s, a), inv);
      }
    }
    hide Coherent, Faithful, RefusedOnce, Spares;
  }

  lemma RunKeepsFine(s: State, a: RunAction, inv: nat)
    requires Coherent(s) && RunEnabled(s, a) && Fine(s, inv)
    ensures Fine(RunStep(s, a), inv)
  {
    RunIssuesNothing(s, a);
    if Unknowable(s, inv) {
      if a.CollectNext? { CollectSpares(s, inv); }
      RunSpares(s, a, inv);
      SparingKeepsOnce(s, RunStep(s, a), inv);
    }
    hide Coherent, RefusedOnce, RunStep, RunEnabled;
  }

  lemma RunSpares(s: State, a: RunAction, inv: nat)
    requires RunEnabled(s, a)
    requires a.CollectNext? ==> ResultsFor(RunStep(s, a).transcript.messages, inv) == ResultsFor(s.transcript.messages, inv)
    ensures Spares(s, RunStep(s, a), inv)
  {
    hide ResultsFor, Append, Settle, TerminalStatus, TerminalResult, Outcomes, IssuedBy, Incomplete, RecordOf;
  }

  /** Fresh calls were never issued, nor spoken of. */
  lemma FreshIsNew(s: State, calls: seq<Call>, inv: nat)
    requires MayTakeTurn(s, calls)
    ensures Among(calls, inv) || inv in IssuedBy(calls) ==> inv !in s.issued && ResultsFor(s.transcript.messages, inv) == []
  {
    hide ResultsFor;
    if Among(calls, inv) {
      var k :| 0 <= k < |calls| && calls[k].inv == inv;
      assert calls[k] in calls && Fresh(s, calls[k].inv);
      NoneNamed(s.transcript.messages, inv);
    }
    if inv in IssuedBy(calls) {
      var c := IssuedBy(calls)[inv];
      assert c in calls && Fresh(s, c.inv);
      NoneNamed(s.transcript.messages, inv);
    }
  }

  lemma ModelTurnKeepsFine(s: State, calls: seq<Call>, inv: nat)
    requires Coherent(s) && Kernel(s) && s.control.Looping? && MayTakeTurn(s, calls) && Fine(s, inv)
    ensures Fine(ModelTurnStep(s, calls), inv)
  {
    OtherMessageSpares(s.transcript, AssistantMessage(s.transcript.nextId, calls), inv);
    FreshIsNew(s, calls, inv);
    ResultsPrefix(s.checkpoint.messages, s.transcript.messages, inv);
    hide Coherent, Kernel, ResultsFor, Append, MayTakeTurn, Fresh, IssuedBy, Among;
  }

  lemma TurnSpares(s: State, a: TurnAction, inv: nat)
    requires TurnEnabled(s, a) && !a.ModelTurn?
    ensures Spares(s, TurnStep(s, a), inv)
  {
    hide ResultsFor, Append, Unfinished;
    match a
    case StartBatch => UnfinishedAmong(s.control.calls, s.completed, inv);
    case EndBatch => UnfinishedAmong(s.control.harvest.pending, s.completed, inv);
    case LoopCheckpoint(_) => OtherMessageSpares(s.transcript, UserMessage(s.transcript.nextId), inv);
    case _ =>
  }

  lemma TurnKeepsFine(s: State, a: TurnAction, inv: nat)
    requires Coherent(s) && Faithful(s) && TurnEnabled(s, a) && Fine(s, inv)
    ensures Fine(TurnStep(s, a), inv)
  {
    hide Coherent, Kernel, ControlTold, ModelTurnStep;
    if a.ModelTurn? {
      ModelTurnKeepsFine(s, a.calls, inv);
    } else {
      TurnSpares(s, a, inv);
      hide Spares, RefusedOnce;
      if Unknowable(s, inv) { SparingKeepsOnce(s, TurnStep(s, a), inv); }
    }
  }

  /** Leaving memory behind a checkpoint that has no refused call examined again. */
  lemma ForgetKeepsFine(s: State, cp: Checkpoint, inv: nat)
    requires cp.messages <= s.transcript.messages && Fine(s, inv) && !Orphans(cp, inv)
    ensures Fine(Forget(s, cp), inv)
  {
    ResultsPrefix(cp.messages, s.transcript.messages, inv);
    hide ResultsFor;
  }

  lemma PreserveKeepsFine(s: State, inv: nat)
    requires Faithful(s) && MemoryWins(s) && Fine(s, inv) && !Orphans(PreserveStep(s).checkpoint, inv)
    ensures Fine(PreserveStep(s), inv)
  {
    MemoryWinsExactlyWhen(s);
    UnfinishedAmong(s.checkpoint.pending, s.context.completed + s.checkpoint.completed, inv);
    assert s.control.Inactive? ==> s.context.completed + s.checkpoint.completed <= s.completed;
    hide AllTold, AllAnchored, ControlTold, ResultsFor, LongestMessages, Unfinished;
  }

  lemma ResumeSpares(s: State, withInput: bool, inv: nat)
    requires Faithful(s) && s.control.Inactive?
    ensures Spares(s, ResumeStep(s, withInput), inv)
  {
    assert s.checkpoint.messages == s.transcript.messages && s.completed == s.checkpoint.completed;
    UnfinishedAmong(s.checkpoint.pending, s.checkpoint.completed, inv);
    OtherMessageSpares(s.transcript, UserMessage(s.transcript.nextId), inv);
    hide Faithful, ResultsFor, Append, Unfinished;
  }

  lemma QuietStopSpares(s: State, a: StopAction, inv: nat)
    requires StopEnabled(s, a) && (a.RequestCancel? || a.RecoverLease? || a.ResolveByHuman?)
    ensures Spares(s, StopStep(s, a), inv) && StopStep(s, a).issued == s.issued
  {
    hide ResultsFor, RecoveredStore, ResolvedRecord;
  }

  lemma StopKeepsFine(s: State, a: StopAction, inv: nat)
    requires Faithful(s) && StopEnabled(s, a) && Fine(s, inv)
    requires Merges(Stop(a)) ==> MemoryWins(s) && !Orphans(StopStep(s, a).checkpoint, inv)
    ensures Fine(StopStep(s, a), inv)
  {
    assert s.checkpoint.messages <= s.transcript.messages;
    MemoryWinsExactlyWhen(s);
    hide Faithful, ResultsFor, Append, Unfinished, Preserved, LongestMessages, RefusedOnce, Orphans;
    match a
    case PreserveCheckpoint => PreserveKeepsFine(s, inv);
    case Finish(resumable) => ForgetKeepsFine(s, FinalCheckpoint(s, resumable), inv);
    case Crash =>
      if Unknowable(s, inv) { OnceMeansFree(s, inv); ForgetKeepsFine(s, s.checkpoint, inv); }
    case Resume(withInput) =>
      ResumeSpares(s, withInput, inv);
      if Unknowable(s, inv) { SparingKeepsOnce(s, ResumeStep(s, withInput), inv); }
    case _ =>
      QuietStopSpares(s, a, inv);
      if Unknowable(s, inv) { SparingKeepsOnce(s, StopStep(s, a), inv); }
  }

  lemma OnceMeansFree(s: State, inv: nat)
    requires RefusedOnce(s, inv)
    ensures !Orphans(s.checkpoint, inv)
  {
  }

  lemma StepKeepsFine(s: State, a: Action, inv: nat)
    requires Coherent(s) && Faithful(s) && Enabled(s, a) && Fine(s, inv)
    requires Merges(a) ==> MemoryWins(s) && !Orphans(Step(s, a).checkpoint, inv)
    ensures Fine(Step(s, a), inv)
  {
    hide Coherent, Faithful, Fine, MemoryWins, Orphans, GateStep, RunStep, TurnStep, StopStep, GateEnabled, RunEnabled, TurnEnabled, StopEnabled;
    match a
    case Gate(g) => GateKeepsFine(s, g, inv);
    case Run(r) => RunKeepsFine(s, r, inv);
    case Turn(t) => TurnKeepsFine(s, t, inv);
    case Stop(x) => StopKeepsFine(s, x, inv);
  }

  // ---------------------------------------------------------------- whole runs

  /** No merge of a stretch of a run wrote a checkpoint that orphans the call. */
  ghost predicate NoneOrphaned(states: seq<State>, actions: seq<Action>, k: nat, inv: nat)
    requires k <= |actions| < |states|
  {
    forall j :: 0 <= j < k && Merges(actions[j]) ==> !Orphans(states[j + 1].checkpoint, inv)
  }

  lemma {:induction false} FineThroughout(states: seq<State>, actions: seq<Action>, k: nat, inv: nat)
    requires IsRun(states, actions) && Coherent(states[0]) && Faithful(states[0]) && Fine(states[0], inv) && k < |states|
    requires MergesWin(states, actions, k) && NoneOrphaned(states, actions, k, inv)
    ensures Coherent(states[k]) && Faithful(states[k]) && Fine(states[k], inv)
  {
    hide Step, Enabled, Coherent, Faithful, Fine, Merges, MemoryWins, Orphans;
    if k > 0 {
      assert states[k - 1 + 1] == Step(states[k - 1], actions[k - 1]);
      FineThroughout(states, actions, k - 1, inv);
      StepKeepsFine(states[k - 1], actions[k - 1], inv);
    }
    FaithfulThroughout(states, actions, k);
  }

  lemma StartIsFine(request: Request, history: seq<Message>, inv: nat)
    ensures Fine(Start(request, history), inv)
  {
  }

  /** Over every run, each examination of a call to an unknown tool adds exactly one result message
      for it, and nothing else that happens within a process does. */
  lemma ExaminationAddsOne(request: Request, history: seq<Message>, states: seq<State>, actions: seq<Action>, k: nat, inv: nat)
    requires IsRun(states, actions) && states[0] == Start(request, history) && k < |actions| && MergesWin(states, actions, k)
    requires Unknowable(states[k], inv) && !actions[k].Stop?
    ensures |ResultsFor(states[k + 1].transcript.messages, inv)|
         == |ResultsFor(states[k].transcript.messages, inv)| + if Examines(states[k], actions[k], inv) then 1 else 0
  {
    hide ResultsFor, BoundFor, MergesWin, Step, Enabled, Coherent, Faithful, Examines;
    StartFits(request, history, 0);
    StartIsFaithful(request, history);
    FaithfulThroughout(states, actions, k);
    StepAddsOne(states[k], actions[k], inv);
  }

  lemma StepAddsOne(s: State, a: Action, inv: nat)
    requires Coherent(s) && Faithful(s) && Enabled(s, a) && !a.Stop? && Unknowable(s, inv)
    ensures |ResultsFor(Step(s, a).transcript.messages, inv)|
         == |ResultsFor(s.transcript.messages, inv)| + if Examines(s, a, inv) then 1 else 0
  {
    hide Coherent, Faithful, ResultsFor, GateStep, RunStep, TurnStep, GateEnabled, RunEnabled, TurnEnabled, Examines;
    match a
    case Gate(g) => GateAddsOne(s, g, inv);
    case Run(r) => OnlyGatesExamine(s, a, inv); RunAddsNone(s, r, inv);
    case Turn(t) => OnlyGatesExamine(s, a, inv); TurnAddsNone(s, t, inv);
  }

  lemma OnlyGatesExamine(s: State, a: Action, inv: nat)
    requires !a.Gate?
    ensures !Examines(s, a, inv)
  {
  }

  lemma RunAddsNone(s: State, a: RunAction, inv: nat)
    requires Coherent(s) && RunEnabled(s, a) && Unknowable(s, inv)
    ensures ResultsFor(RunStep(s, a).transcript.messages, inv) == ResultsFor(s.transcript.messages, inv)
  {
    if a.CollectNext? { CollectSpares(s, inv); }
    RunSpares(s, a, inv);
    hide Coherent, RunStep, RunEnabled, ResultsFor;
  }

  lemma TurnAddsNone(s: State, a: TurnAction, inv: nat)
    requires TurnEnabled(s, a)
    ensures ResultsFor(TurnStep(s, a).transcript.messages, inv) == ResultsFor(s.transcript.messages, inv)
  {
    hide ResultsFor, Append;
    if a.ModelTurn? {
      OtherMessageSpares(s.transcript, AssistantMessage(s.transcript.nextId, a.calls), inv);
    } else {
      TurnSpares(s, a, inv);
    }
  }

  /** While no merge orphans it, a call to an unknown tool has at most one result message as well. */
  lemma OneRefusal(request: Request, history: seq<Message>, states: seq<State>, actions: seq<Action>, k: nat, inv: nat)
    requires IsRun(states, actions) && states[0] == Start(request, history) && k < |states|
    requires MergesWin(states, actions, k) && NoneOrphaned(states, actions, k, inv) && Unknowable(states[k], inv)
    ensures |ResultsFor(states[k].transcript.messages, inv)| <= 1
  {
    hide IsRun, ResultsFor, BoundFor, MergesWin, NoneOrphaned;
    StartFits(request, history, 0);
    StartIsFaithful(request, history);
    StartIsFine(request, history, inv);
    FineThroughout(states, actions, k, inv);
  }

  // ---------------------------------------------------------------- examined again

  /** Reached without any merge. */
  ghost predicate Unmerged(s: State, t: State) {
    exists states: seq<State>, actions: seq<Action> :: UnmergedRun(states, actions, s, t)
  }

  ghost predicate UnmergedRun(states: seq<State>, actions: seq<Action>, s: State, t: State) {
    && IsRun(states, actions) && states[0] == s && states[|states| - 1] == t
    && forall j :: 0 <= j < |actions| ==> !Merges(actions[j])
  }

  lemma Stay(s: State)
    ensures Unmerged(s, s)
  {
    assert UnmergedRun([s], [], s, s);
  }

  lemma Continue(s: State, t: State, a: Action)
    requires Unmerged(s, t) && Enabled(t, a) && !Merges(a)
    ensures Unmerged(s, Step(t, a))
  {
    hide Step, Enabled, Merges;
    var states, actions :| UnmergedRun(states, actions, s, t);
    var u := Step(t, a);
    var more, done := states + [u], actions + [a];
    forall k | 0 <= k < |done| ensures Enabled(more[k], done[k]) && more[k + 1] == Step(more[k], done[k]) {
      if k < |actions| { assert more[k] == states[k] && more[k + 1] == states[k + 1] && done[k] == actions[k]; }
    }
    assert UnmergedRun(more, done, s, u);
  }

  /** A state of a batch whose refusals can be told, reached from `s` without a merge. */
  ghost predicate Reopened(s: State, t: State, pending: seq<Call>, pos: nat, inv: nat) {
    && Unmerged(s, t) && Coherent(t) && Faithful(t) && Unknowable(t, inv) && Refused(t.transcript.messages, inv)
    && t.control.Gating? && t.control.gate.pending == pending && t.control.gate.pos == pos
  }

  lemma Advance(s: State, t: State, pending: seq<Call>, pos: nat, inv: nat, a: GateAction) returns (u: State)
    requires Reopened(s, t, pending, pos, inv) && GateEnabled(t, a)
    ensures u == GateStep(t, a) && u.control.Gating? && Reopened(s, u, pending, u.control.gate.pos, inv)
  {
    hide Coherent, Faithful, Unmerged, ResultsFor, GateStep, GateEnabled, GateEffect;
    u := GateStep(t, a);
    GateEffects(t, a);
    Continue(s, t, Gate(a));
    StepKeepsCoherent(t, Gate(a));
    StepKeepsFaithful(t, Gate(a));
    GateAddsOne(t, a, inv);
    GateKeepsPending(t, a);
  }

  lemma GateKeepsPending(s: State, a: GateAction)
    requires Coherent(s) && GateEnabled(s, a)
    ensures GateStep(s, a).control.Gating? && GateStep(s, a).control.gate.pending == s.control.gate.pending
    ensures GateStep(s, a).issued == s.issued
  {
    GateEffects(s, a);
    hide Coherent, Append, DropResults, PolicyVerdict, NeedsConfirmation, Settled, Unrepeatable, Replayed, RecordOf, GateMove;
  }

  lemma StageAfter(s: State, a: GateAction)
    requires Coherent(s) && GateEnabled(s, a)
    requires a.Unknown? || a.Receive? || a.Reject? || a.Accept? || a.AskCheckpoint? || a.Replay? || a.Unclear? || a.AppendEarly?
    ensures var t := GateStep(s, a).control;
            && t.Gating?
            && (a.Unknown? || a.Reject? ==> t.gate.pos == s.control.gate.pos && t.gate.stage.EarlyResult?)
            && (a.Receive? ==> t.gate == s.control.gate && AtStoredCall(GateStep(s, a)))
            && (a.Accept? ==> t.gate.pos == s.control.gate.pos && t.gate.stage.AtPolicy?)
            && (a.AskCheckpoint? ==> t.gate.pos == s.control.gate.pos && t.gate.stage.AwaitingAnswer?)
            && (a.Replay? || a.Unclear? || a.AppendEarly? ==> t.gate.pos == s.control.gate.pos + 1 && t.gate.stage.AtCall?)
  {
    hide Coherent, Append, DropResults, Settled, Unrepeatable, Replayed;
  }

  lemma StageAfterPolicy(s: State)
    requires AtStage(s, AtPolicy)
    ensures var t := ApplyPolicyStep(s).control;
            && t.Gating?
            && (|| (t.gate.pos == s.control.gate.pos && (t.gate.stage.EarlyResult? || t.gate.stage.AskSaved?))
                || (t.gate.pos == s.control.gate.pos + 1 && t.gate.stage.AtCall?))
  {
    hide PolicyVerdict, RecordOf;
  }

  lemma StageAfterDenial(s: State)
    requires AtStage(s, AwaitingAnswer)
    ensures var t := AnswerStep(s, Deny).control; t.Gating? && t.gate.pos == s.control.gate.pos && t.gate.stage.EarlyResult?
  {
    hide RecordOf;
  }

  /** A call that has its result already, and one that a human is asked about, can be passed. */
  lemma PassLate(s: State, t: State, pending: seq<Call>, pos: nat, inv: nat) returns (u: State)
    requires Reopened(s, t, pending, pos, inv) && pos < |pending|
    requires t.control.gate.stage.EarlyResult? || t.control.gate.stage.AskSaved? || t.control.gate.stage.AwaitingAnswer?
    ensures Reopened(s, u, pending, pos + 1, inv) && u.control.gate.stage.AtCall?
    decreases if t.control.gate.stage.EarlyResult? then 0 else if t.control.gate.stage.AwaitingAnswer? then 1 else 2
  {
    hide Coherent, Faithful, Unmerged, Unknowable, Refused, AppendEarlyStep, AskStep, AnswerStep;
    if t.control.gate.stage.EarlyResult? {
      StageAfter(t, AppendEarly);
      u := Advance(s, t, pending, pos, inv, AppendEarly);
    } else if t.control.gate.stage.AwaitingAnswer? {
      StageAfterDenial(t);
      u := Advance(s, t, pending, pos, inv, Answer(Deny));
      u := PassLate(s, u, pending, pos, inv);
    } else {
      StageAfter(t, AskCheckpoint);
      u := Advance(s, t, pending, pos, inv, AskCheckpoint);
      u := PassLate(s, u, pending, pos, inv);
    }
  }

  lemma PassRunnable(s: State, t: State, pending: seq<Call>, pos: nat, inv: nat) returns (u: State)
    requires Reopened(s, t, pending, pos, inv) && pos < |pending| && AtRunnableCall(t)
    ensures Reopened(s, u, pending, pos + 1, inv) && u.control.gate.stage.AtCall?
  {
    hide Coherent, Faithful, Unmerged, Unknowable, Refused, AppendEarlyStep, AskStep, AnswerStep, RejectStep, AcceptStep, ApplyPolicyStep, Settled, Unrepeatable;
    if !Current(t).validArguments {
      StageAfter(t, Reject);
      u := Advance(s, t, pending, pos, inv, Reject);
      u := PassLate(s, u, pending, pos, inv);
    } else {
      StageAfter(t, Accept);
      u := Advance(s, t, pending, pos, inv, Accept);
      StageAfterPolicy(u);
      u := Advance(s, u, pending, pos, inv, ApplyPolicy);
      if u.control.gate.pos == pos { u := PassLate(s, u, pending, pos, inv); }
    }
  }

  /** The batch can get past any call. */
  lemma PassCall(s: State, t: State, pending: seq<Call>, pos: nat, inv: nat) returns (u: State)
    requires Reopened(s, t, pending, pos, inv) && pos < |pending| && t.control.gate.stage.AtCall?
    ensures Reopened(s, u, pending, pos + 1, inv) && u.control.gate.stage.AtCall?
  {
    hide Coherent, Faithful, Unmerged, Unknowable, Refused, UnknownStep, ReceiveStep, ReplayStep, UnclearStep, Settled, Unrepeatable;
    u := t;
    if !Current(t).known {
      StageAfter(t, Unknown);
      u := Advance(s, t, pending, pos, inv, Unknown);
      u := PassLate(s, u, pending, pos, inv);
    } else {
      if Current(t).inv !in t.store {
        StageAfter(t, Receive);
        u := Advance(s, t, pending, pos, inv, Receive);
      }
      if Settled(CurrentRecord(u)) {
        StageAfter(u, Replay);
        u := Advance(s, u, pending, pos, inv, Replay);
      } else if Unrepeatable(Current(u), CurrentRecord(u)) {
        StageAfter(u, Unclear);
        u := Advance(s, u, pending, pos, inv, Unclear);
      } else {
        u := PassRunnable(s, u, pending, pos, inv);
      }
    }
  }

  /** The batch can get to any call of it. */
  lemma PassUpTo(s: State, t: State, pending: seq<Call>, pos: nat, inv: nat, goal: nat) returns (u: State)
    requires Reopened(s, t, pending, pos, inv) && pos <= goal < |pending| && t.control.gate.stage.AtCall?
    ensures Reopened(s, u, pending, goal, inv) && u.control.gate.stage.AtCall?
    decreases goal - pos
  {
    hide Reopened;
    u := t;
    if pos < goal {
      assert t.control.Gating? by { OpenIsGating(s, t, pending, pos, inv); }
      u := PassCall(s, t, pending, pos, inv);
      u := PassUpTo(s, u, pending, pos + 1, inv, goal);
    }
  }

  lemma OpenIsGating(s: State, t: State, pending: seq<Call>, pos: nat, inv: nat)
    requires Reopened(s, t, pending, pos, inv)
    ensures t.control.Gating?
  {
  }

  lemma Stepped(s: State, t: State, a: Action) returns (u: State)
    requires Unmerged(s, t) && Coherent(t) && Faithful(t) && Enabled(t, a) && !Merges(a)
    ensures u == Step(t, a) && Unmerged(s, u) && Coherent(u) && Faithful(u)
  {
    hide Coherent, Faithful, Unmerged, Step, Enabled;
    u := Step(t, a);
    Continue(s, t, a);
    StepKeepsCoherent(t, a);
    StepKeepsFaithful(t, a);
  }

  /** Losing memory behind a checkpoint with unfinished calls and resuming. */
  lemma Resumed(s: State) returns (t: State)
    requires Coherent(s) && Faithful(s)
    requires Unfinished(s.checkpoint.pending, s.checkpoint.completed) != [] && !s.checkpoint.phase.ModelTurnPhase?
    ensures Unmerged(s, t) && Coherent(t) && Faithful(t) && t.issued == s.issued
    ensures t.control == BatchReady(Unfinished(s.checkpoint.pending, s.checkpoint.completed))
    ensures t.transcript.messages == s.checkpoint.messages && t.completed == s.checkpoint.completed
  {
    hide Coherent, Faithful, Unmerged, Unfinished, Unsaved, CancelStep, PreserveStep, FinalCheckpoint, RecoverLeaseStep, ResolveStep;
    Stay(s);
    t := Stepped(s, s, Stop(Crash));
    t := Stepped(s, t, Stop(Resume(false)));
  }

  /** An orphaning checkpoint leads to a batch in which the refused call is examined again. */
  lemma Reopen(s: State, inv: nat) returns (t: State, goal: nat)
    requires Coherent(s) && Faithful(s) && Unknowable(s, inv)
    requires Orphans(s.checkpoint, inv) && !s.checkpoint.phase.ModelTurnPhase?
    ensures t.control.Gating? && goal < |t.control.gate.pending| && t.control.gate.pending[goal].inv == inv
    ensures t.control.gate.stage.AtCall? && Reopened(s, t, t.control.gate.pending, 0, inv)
  {
    hide Coherent, Faithful, ResultsFor, Unmerged, Unfinished, ModelTurnStep, TurnCheckpointStep, LoopCheckpointStep, EndBatchStep;
    var pending := Unfinished(s.checkpoint.pending, s.checkpoint.completed);
    StillUnfinished(s.checkpoint.pending, s.checkpoint.completed, inv);
    t := Resumed(s);
    StillUnfinished(pending, s.checkpoint.completed, inv);
    t := Stepped(s, t, Turn(StartBatch));
    goal :| 0 <= goal < |t.control.gate.pending| && t.control.gate.pending[goal].inv == inv;
  }

  /** From such a checkpoint, whatever else the batch holds, the call gets a second result message. */
  lemma OrphanIsRefusedAgain(s: State, inv: nat) returns (t: State)
    requires Coherent(s) && Faithful(s) && Unknowable(s, inv)
    requires Orphans(s.checkpoint, inv) && !s.checkpoint.phase.ModelTurnPhase?
    ensures Unmerged(s, t) && |ResultsFor(t.transcript.messages, inv)| >= 2
  {
    hide Coherent, Faithful, Unmerged, ResultsFor, Orphans, UnknownStep, AppendEarlyStep;
    var goal;
    t, goal := Reopen(s, inv);
    var pending := t.control.gate.pending;
    t := PassUpTo(s, t, pending, 0, inv, goal);
    CurrentIsIssued(t);
    StageAfter(t, Unknown);
    t := Advance(s, t, pending, goal, inv, Unknown);
    GateAddsOne(t, AppendEarly, inv);
    t := Advance(s, t, pending, goal, inv, AppendEarly);
  }

  /** Without another merge, a state in order never gets a call refused twice. */
  lemma FineStaysFine(s: State, t: State, inv: nat)
    requires Coherent(s) && Faithful(s) && Fine(s, inv) && Unknowable(s, inv) && Unmerged(s, t)
    ensures Fine(t, inv) && Unknowable(t, inv)
  {
    hide Coherent, Faithful, Fine, Step, Enabled, Merges, MemoryWins, Orphans;
    var states, actions :| UnmergedRun(states, actions, s, t);
    FineThroughout(states, actions, |states| - 1, inv);
    StillUnknowable(states, actions, |states| - 1, inv);
  }

  lemma TurnKeepsIssued(s: State, a: TurnAction, inv: nat)
    requires TurnEnabled(s, a) && inv in s.issued
    ensures inv in TurnStep(s, a).issued && TurnStep(s, a).issued[inv] == s.issued[inv]
  {
    if a.ModelTurn? { FreshCalls(s, a.calls); }
    hide MayTakeTurn, IssuedBy, Append, Unfinished;
  }

  /** What a call is stays fixed once it was issued. */
  lemma StepKeepsIssued(s: State, a: Action, inv: nat)
    requires Coherent(s) && Enabled(s, a) && inv in s.issued
    ensures inv in Step(s, a).issued && Step(s, a).issued[inv] == s.issued[inv]
  {
    hide Coherent, GateStep, RunStep, TurnStep, GateEnabled, RunEnabled, TurnEnabled, Append, Unfinished, Preserved, FinalCheckpoint;
    match a
    case Gate(g) => GateKeepsPending(s, g);
    case Run(r) => RunIssuesNothing(s, r);
    case Turn(t) => TurnKeepsIssued(s, t, inv);
    case Stop(x) =>
  }

  lemma {:induction false} StillUnknowable(states: seq<State>, actions: seq<Action>, k: nat, inv: nat)
    requires IsRun(states, actions) && Coherent(states[0]) && k < |states| && Unknowable(states[0], inv)
    ensures Unknowable(states[k], inv)
  {
    hide Step, Enabled, Coherent;
    if k > 0 {
      assert states[k - 1 + 1] == Step(states[k - 1], actions[k - 1]);
      StillUnknowable(states, actions, k - 1, inv);
      CoherentThroughout(states, actions, k - 1);
      StepKeepsIssued(states[k - 1], actions[k - 1], inv);
    }
  }

  lemma MergesForBatches(s: State, a: Action)
    requires Enabled(s, a) && Merges(a)
    ensures !Step(s, a).checkpoint.phase.ModelTurnPhase?
  {
    hide LongestMessages, Unfinished;
  }

  /** The exact condition.  While memory won every merge and no earlier one orphaned the call, a merge
      can lead to a second refusal of it, without another merge, if and only if it orphans the call. */
  lemma RefusedTwiceExactlyWhen(request: Request, history: seq<Message>, states: seq<State>, actions: seq<Action>, k: nat, inv: nat)
    requires IsRun(states, actions) && states[0] == Start(request, history) && k < |actions| && Merges(actions[k])
    requires MergesWin(states, actions, k + 1) && NoneOrphaned(states, actions, k, inv) && Unknowable(states[k + 1], inv)
    ensures Orphans(states[k + 1].checkpoint, inv)
       <==> exists t :: Unmerged(states[k + 1], t) && |ResultsFor(t.transcript.messages, inv)| >= 2
  {
    hide Coherent, Faithful, Fine, Step, Enabled, Merges, MemoryWins, Orphans, ResultsFor, Unmerged, BoundFor;
    StartFits(request, history, 0);
    StartIsFaithful(request, history);
    StartIsFine(request, history, inv);
    FaithfulThroughout(states, actions, k + 1);
    if Orphans(states[k + 1].checkpoint, inv) {
      MergesForBatches(states[k], actions[k]);
      var t := OrphanIsRefusedAgain(states[k + 1], inv);
    } else {
      FineThroughout(states, actions, k + 1, inv);
      forall t | Unmerged(states[k + 1], t) ensures |ResultsFor(t.transcript.messages, inv)| < 2 {
        FineStaysFine(states[k + 1], t, inv);
        FineIsOnce(t, inv);
      }
    }
  }

  lemma FineIsOnce(s: State, inv: nat)
    requires Fine(s, inv) && Unknowable(s, inv)
    ensures |ResultsFor(s.transcript.messages, inv)| <= 1
  {
  }

  /** What a merge that memory wins orphans: a call with a refusal in memory, not completed as far as
      the run context and the checkpoint know, that is kept pending. */
  lemma MergeOrphansExactlyWhen(s: State, resumable: bool, inv: nat)
    requires Faithful(s) && MemoryWins(s)
    ensures Orphans(Preserved(s), inv)
       <==> Refused(s.transcript.messages, inv) && inv !in Kept(s) && Among(Preserved(s).pending, inv)
    ensures Orphans(FinalCheckpoint(s, resumable), inv)
       <==> Refused(s.transcript.messages, inv) && inv !in Kept(s) && Among(FinalCheckpoint(s, resumable).pending, inv)
  {
    MemoryWinsExactlyWhen(s);
    hide Faithful, ResultsFor, LongestMessages, Unfinished;
  }
}
