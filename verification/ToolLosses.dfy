/** What a merge writes into the checkpoint when the message rows outnumber the list in memory:
    the result messages of a call that stand in memory, and those that crashes had taken out of it. */
module ToolLosses {
  import opened ToolRecovery
  import opened ToolSafety
  import opened ToolTranscript

  /** How many result messages of an invocation were lost because a process ended. */
  function LostResults(log: seq<Event>, inv: nat): nat {
    if log == [] then 0
    else
      var last := log[|log| - 1];
      LostResults(log[..|log| - 1], inv) + if last.ProcessEnded? then |ResultsFor(last.unsaved, inv)| else 0
  }

  lemma LostResultsAppend(log: seq<Event>, e: Event, inv: nat)
    ensures LostResults(log + [e], inv)
         == LostResults(log, inv) + if e.ProcessEnded? then |ResultsFor(e.unsaved, inv)| else 0
  {
  }

  /** Every message ever saved has a row, so the rows say what memory says and what was lost.
      The history spliced in from earlier runs has no rows in this run. */
  predicate RowsTell(history: seq<Message>, s: State, inv: nat) {
    |ResultsFor(RowMessages(s.transcript.rows), inv)| + |ResultsFor(history, inv)|
    == |ResultsFor(s.transcript.messages, inv)| + LostResults(s.log, inv)
  }

  /** The history stays in front of every checkpoint and speaks of none of this run's calls. */
  predicate HistoryApart(history: seq<Message>, s: State, inv: nat) {
    history <= s.checkpoint.messages && (inv in s.issued ==> ResultsFor(history, inv) == [])
  }

  predicate Accounted(history: seq<Message>, s: State, inv: nat) {
    RowsTell(history, s, inv) && HistoryApart(history, s, inv)
  }

  // ---------------------------------------------------------------- lists and rows

  lemma {:induction false} ResultsConcat(early: seq<Message>, late: seq<Message>, inv: nat)
    ensures ResultsFor(early + late, inv) == ResultsFor(early, inv) + ResultsFor(late, inv)
  {
    if late == [] {
      assert early + late == early;
    } else {
      assert (early + late)[..|early + late| - 1] == early + late[..|late| - 1];
      ResultsConcat(early, late[..|late| - 1], inv);
    }
  }

  lemma {:induction false} RowMessagesConcat(early: seq<Row>, late: seq<Row>)
    ensures RowMessages(early + late) == RowMessages(early) + RowMessages(late)
  {
    if early == [] {
      assert early + late == late;
    } else {
      assert (early + late)[1..] == early[1..] + late;
      RowMessagesConcat(early[1..], late);
    }
  }

  /** Wherever a row is inserted, it adds its own message and nothing else. */
  lemma {:induction false} InsertTells(rows: seq<Row>, row: Row, inv: nat)
    ensures |ResultsFor(RowMessages(InsertRow(rows, row)), inv)|
         == |ResultsFor(RowMessages(rows), inv)| + |ResultsFor([row.message], inv)|
  {
    hide ResultsFor;
    OneRow(row);
    if rows == [] || rows[|rows| - 1].seqNo <= row.seqNo {
      RowMessagesConcat(rows, [row]);
      ResultsConcat(RowMessages(rows), [row.message], inv);
    } else {
      var before, last := rows[..|rows| - 1], rows[|rows| - 1];
      InsertTells(before, row, inv);
      OneRow(last);
      RowMessagesConcat(InsertRow(before, row), [last]);
      ResultsConcat(RowMessages(InsertRow(before, row)), [last.message], inv);
      RowMessagesConcat(before, [last]);
      ResultsConcat(RowMessages(before), [last.message], inv);
      assert rows == before + [last];
    }
  }

  lemma OneRow(row: Row)
    ensures RowMessages([row]) == [row.message]
  {
  }

  // ---------------------------------------------------------------- how a step moves the transcript

  /** No message, or exactly one, is added. */
  ghost predicate Extends(t: Transcript, u: Transcript) {
    u == t || exists m: Message :: u == Append(t, m)
  }

  predicate EndsNoProcess(log: seq<Event>, more: seq<Event>) {
    log <= more && forall k :: |log| <= k < |more| ==> !more[k].ProcessEnded?
  }

  /** A step within a process: the transcript at most grows, and so does the checkpoint. */
  ghost predicate Grows(s: State, t: State) {
    && Extends(s.transcript, t.transcript) && EndsNoProcess(s.log, t.log)
    && s.checkpoint.messages <= t.checkpoint.messages
  }

  lemma ReplayExtends(s: State)
    requires Coherent(s) && Faithful(s) && AtStoredCall(s) && Settled(CurrentRecord(s))
    ensures Extends(s.transcript, ReplayStep(s).transcript)
  {
    hide Faithful, Append, ResultMessages, ResultsFor;
    PresentResult(s);
    if ResultsFor(s.transcript.messages, Current(s).inv) == [] { DropNothing(s.transcript, Current(s)); }
    hide Anchored, ResultPresent, DropResults, Coherent;
  }

  lemma UnclearExtends(s: State)
    requires Coherent(s) && Faithful(s) && AtStoredCall(s) && Unrepeatable(Current(s), CurrentRecord(s))
    ensures UnclearStep(s).transcript == s.transcript
  {
    hide AllTold, ResultsFor, ResultMessages, Registered, RowsAccounted;
    UnsettledIsUnspoken(s, Current(s).inv);
    assert Anchored(s.transcript.messages, s.control.gate.pending[s.control.gate.pos]);
    DropNothing(s.transcript, Current(s));
  }

  lemma GateIsQuiet(s: State, a: GateAction)
    requires Coherent(s) && GateEnabled(s, a)
    ensures EndsNoProcess(s.log, GateStep(s, a).log)
  {
    hide GateStep, Coherent;
    GateEffects(s, a);
  }

  lemma VerdictKeepsTranscript(s: State)
    requires AtStage(s, AtPolicy)
    ensures ApplyPolicyStep(s).transcript == s.transcript && ApplyPolicyStep(s).checkpoint == s.checkpoint
  {
    hide PolicyVerdict, RecordOf;
  }

  lemma AnswerKeepsTranscript(s: State, decision: Decision)
    requires AtStage(s, AwaitingAnswer)
    ensures AnswerStep(s, decision).transcript == s.transcript && AnswerStep(s, decision).checkpoint == s.checkpoint
  {
    hide NeedsConfirmation, RecordOf;
  }

  /** Examining a call and saving what was found says nothing. */
  lemma ExaminingSaysNothing(s: State, a: GateAction)
    requires Coherent(s) && Faithful(s) && GateEnabled(s, a) && (a.Unknown? || a.Receive? || a.Unclear? || a.Reject? || a.Accept?)
    ensures GateStep(s, a).transcript == s.transcript && GateStep(s, a).checkpoint == s.checkpoint
  {
    if a.Unclear? { UnclearExtends(s); }
    if a.Reject? || a.Accept? { FaithfulRecover(s); }
    hide Coherent, Faithful, DropResults, Settled, Unrepeatable, RecordOf, Unspoken, Interrupted;
  }

  /** Every other gating action moves the transcript by at most one message. */
  lemma SpeakingGrows(s: State, a: GateAction)
    requires Coherent(s) && Faithful(s) && GateEnabled(s, a) && (a.Replay? || a.AppendEarly? || a.AskCheckpoint?)
    ensures Extends(s.transcript, GateStep(s, a).transcript)
    ensures s.checkpoint.messages <= GateStep(s, a).checkpoint.messages
  {
    assert s.checkpoint.messages <= s.transcript.messages;
    if a.Replay? { ReplayExtends(s); }
    hide Coherent, Faithful, Append, Settled, Replayed;
  }

  lemma GateGrows(s: State, a: GateAction)
    requires Coherent(s) && Faithful(s) && GateEnabled(s, a)
    ensures Grows(s, GateStep(s, a))
  {
    GateIsQuiet(s, a);
    hide Coherent, Faithful, GateStep, EndsNoProcess;
    match a
    case ApplyPolicy => VerdictSaysNothing(s, a);
    case Answer(decision) => VerdictSaysNothing(s, a);
    case Replay => SpeakingGrows(s, a);
    case AppendEarly => SpeakingGrows(s, a);
    case AskCheckpoint => SpeakingGrows(s, a);
    case _ => ExaminingSaysNothing(s, a);
  }

  lemma VerdictSaysNothing(s: State, a: GateAction)
    requires GateEnabled(s, a) && (a.ApplyPolicy? || a.Answer?)
    ensures GateStep(s, a).transcript == s.transcript && GateStep(s, a).checkpoint == s.checkpoint
  {
    hide ApplyPolicyStep, AnswerStep;
    match a
    case ApplyPolicy => VerdictKeepsTranscript(s);
    case Answer(decision) => AnswerKeepsTranscript(s, decision);
  }

  lemma RunGrows(s: State, a: RunAction)
    requires RunEnabled(s, a)
    ensures Grows(s, RunStep(s, a))
  {
    hide Append, Settle, TerminalStatus, TerminalResult, Outcomes, IssuedBy;
  }

  lemma AppendGrows(t: Transcript, m: Message)
    ensures t.messages <= Append(t, m).messages && Extends(t, Append(t, m))
  {
  }

  lemma SavingGrows(s: State, a: TurnAction)
    requires Faithful(s) && TurnEnabled(s, a) && !a.ModelTurn? && !a.LoopCheckpoint?
    ensures Grows(s, TurnStep(s, a))
  {
    assert s.checkpoint.messages <= s.transcript.messages;
    hide Faithful, Append, Unfinished, Extends;
    StaysExtended(s.transcript);
  }

  lemma TurnGrows(s: State, a: TurnAction)
    requires Faithful(s) && TurnEnabled(s, a)
    ensures Grows(s, TurnStep(s, a))
  {
    assert s.checkpoint.messages <= s.transcript.messages;
    hide Faithful, Append, IssuedBy, Extends, MayTakeTurn, Unfinished;
    match a
    case ModelTurn(calls) => AppendGrows(s.transcript, AssistantMessage(s.transcript.nextId, calls));
    case LoopCheckpoint(_) =>
      AppendGrows(s.transcript, UserMessage(s.transcript.nextId));
      StaysExtended(s.transcript);
    case _ => SavingGrows(s, a);
  }

  lemma StaysExtended(t: Transcript)
    ensures Extends(t, t)
  {
  }

  // ---------------------------------------------------------------- what a step accounts for

  lemma {:induction false} QuietLosesNothing(log: seq<Event>, more: seq<Event>, inv: nat)
    requires EndsNoProcess(log, more)
    ensures LostResults(more, inv) == LostResults(log, inv)
  {
    if log != more {
      QuietLosesNothing(log, more[..|more| - 1], inv);
    }
  }

  lemma AppendTells(t: Transcript, m: Message, inv: nat)
    ensures |ResultsFor(RowMessages(Append(t, m).rows), inv)| == |ResultsFor(RowMessages(t.rows), inv)| + |ResultsFor([m], inv)|
    ensures |ResultsFor(Append(t, m).messages, inv)| == |ResultsFor(t.messages, inv)| + |ResultsFor([m], inv)|
  {
    InsertTells(t.rows, Row(|t.messages| + 1, m), inv);
    ResultsConcat(t.messages, [m], inv);
  }

  lemma GrowingTells(history: seq<Message>, s: State, t: State, inv: nat)
    requires Grows(s, t) && RowsTell(history, s, inv)
    ensures RowsTell(history, t, inv)
  {
    hide Append, ResultsFor, RowMessages;
    QuietLosesNothing(s.log, t.log, inv);
    if t.transcript != s.transcript {
      var m :| t.transcript == Append(s.transcript, m);
      AppendTells(s.transcript, m, inv);
    }
  }

  /** A call that is issued now is new to the history. */
  lemma FreshApart(history: seq<Message>, s: State, calls: seq<Call>, inv: nat)
    requires MayTakeTurn(s, calls) && Kernel(s) && HistoryApart(history, s, inv)
    ensures inv in IssuedBy(calls) ==> ResultsFor(history, inv) == []
  {
    if inv in IssuedBy(calls) {
      var c := IssuedBy(calls)[inv];
      assert c in calls && Fresh(s, c.inv);
      NoneNamed(history, inv);
    }
  }

  /** Leaving memory moves the lost results from memory to the log. */
  lemma ForgetTells(history: seq<Message>, s: State, cp: Checkpoint, inv: nat)
    requires RowsTell(history, s, inv) && cp.messages <= s.transcript.messages
    ensures RowsTell(history, Forget(s, cp), inv)
  {
    hide ResultsFor, RowMessages;
    LostResultsAppend(s.log, ProcessEnded(Unsaved(s, cp)), inv);
    assert s.transcript.messages == cp.messages + Unsaved(s, cp);
    ResultsConcat(cp.messages, Unsaved(s, cp), inv);
  }

  lemma ResumeTells(history: seq<Message>, s: State, withInput: bool, inv: nat)
    requires Faithful(s) && s.control.Inactive? && RowsTell(history, s, inv)
    ensures RowsTell(history, ResumeStep(s, withInput), inv)
  {
    assert s.checkpoint.messages == s.transcript.messages;
    hide Faithful, ResultsFor, RowMessages, Append, Unfinished;
    if withInput { AppendTells(s.transcript, UserMessage(s.transcript.nextId), inv); }
  }

  lemma PreserveTells(history: seq<Message>, s: State, inv: nat)
    requires Faithful(s) && MemoryWins(s) && RowsTell(history, s, inv)
    ensures RowsTell(history, PreserveStep(s), inv) && PreserveStep(s).checkpoint.messages == s.transcript.messages
  {
    MemoryWinsExactlyWhen(s);
    hide Faithful, ResultsFor, RowMessages, LongestMessages, Unfinished;
  }

  lemma FinishTells(history: seq<Message>, s: State, resumable: bool, inv: nat)
    requires Faithful(s) && MemoryWins(s) && RowsTell(history, s, inv)
    ensures RowsTell(history, Forget(s, FinalCheckpoint(s, resumable)), inv)
    ensures FinalCheckpoint(s, resumable).messages == s.transcript.messages
  {
    MemoryWinsExactlyWhen(s);
    var cp := FinalCheckpoint(s, resumable);
    assert cp.messages == s.transcript.messages;
    ForgetTells(history, s, cp, inv);
    hide Faithful, ResultsFor, RowMessages, LongestMessages, Unfinished, FinalCheckpoint;
  }

  /** Asking for cancellation, recovering a lease and a human decision touch no message. */
  lemma SilentStopAccounts(history: seq<Message>, s: State, a: StopAction, inv: nat)
    requires StopEnabled(s, a) && (a.RequestCancel? || a.RecoverLease? || a.ResolveByHuman?) && Accounted(history, s, inv)
    ensures Accounted(history, StopStep(s, a), inv)
  {
    hide ResultsFor, RowMessages, LostResults, ResolvedRecord, RecoveredStore;
    if a.ResolveByHuman? { LostResultsAppend(s.log, HumanResolved(a.inv, a.human), inv); }
  }

  lemma StopAccounts(history: seq<Message>, s: State, a: StopAction, inv: nat)
    requires Coherent(s) && Faithful(s) && StopEnabled(s, a) && (Merges(Stop(a)) ==> MemoryWins(s))
    requires Accounted(history, s, inv)
    ensures Accounted(history, StopStep(s, a), inv)
  {
    assert s.checkpoint.messages <= s.transcript.messages;
    hide Coherent, Faithful, ResultsFor, RowsTell, Append, Unfinished, Preserved, FinalCheckpoint, MemoryWins;
    match a
    case PreserveCheckpoint => PreserveTells(history, s, inv);
    case Finish(resumable) => FinishTells(history, s, resumable, inv);
    case Crash => ForgetTells(history, s, s.checkpoint, inv);
    case Resume(withInput) => ResumeTells(history, s, withInput, inv);
    case _ => SilentStopAccounts(history, s, a, inv);
  }

  lemma GrowingAccounts(history: seq<Message>, s: State, t: State, inv: nat)
    requires Grows(s, t) && Accounted(history, s, inv) && (inv in t.issued && inv !in s.issued ==> ResultsFor(history, inv) == [])
    ensures Accounted(history, t, inv)
  {
    GrowingTells(history, s, t, inv);
    hide RowsTell, ResultsFor;
  }

  lemma StepAccounts(history: seq<Message>, s: State, a: Action, inv: nat)
    requires Coherent(s) && Faithful(s) && Enabled(s, a) && (Merges(a) ==> MemoryWins(s)) && Accounted(history, s, inv)
    ensures Accounted(history, Step(s, a), inv)
  {
    assert Kernel(s);
    hide Coherent, Faithful, Kernel, Accounted, Grows, MemoryWins, GateStep, RunStep, StopStep, GateEnabled, RunEnabled, StopEnabled;
    match a
    case Gate(g) =>
      GateEffects(s, g);
      GateGrows(s, g);
      GrowingAccounts(history, s, GateStep(s, g), inv);
    case Run(r) =>
      RunGrows(s, r);
      RunIssuesNothing(s, r);
      GrowingAccounts(history, s, RunStep(s, r), inv);
    case Turn(t) =>
      TurnGrows(s, t);
      TurnApart(history, s, t, inv);
      GrowingAccounts(history, s, TurnStep(s, t), inv);
    case Stop(x) => StopAccounts(history, s, x, inv);
  }

  lemma RunIssuesNothing(s: State, a: RunAction)
    requires RunEnabled(s, a)
    ensures RunStep(s, a).issued == s.issued && RunStep(s, a).spliced == s.spliced
  {
    hide Append, Settle, TerminalStatus, TerminalResult, Outcomes, IssuedBy, Incomplete, RecordOf;
  }

  lemma TurnApart(history: seq<Message>, s: State, a: TurnAction, inv: nat)
    requires Kernel(s) && TurnEnabled(s, a) && Accounted(history, s, inv)
    ensures inv in TurnStep(s, a).issued && inv !in s.issued ==> ResultsFor(history, inv) == []
  {
    if a.ModelTurn? { FreshApart(history, s, a.calls, inv); }
    hide Kernel, ResultsFor, MayTakeTurn, Append, RowsTell;
  }

  // ---------------------------------------------------------------- whole runs

  lemma StartAccounts(request: Request, history: seq<Message>, inv: nat)
    ensures Accounted(history, Start(request, history), inv)
  {
    var first := UserMessage(|history|);
    ResultsConcat(history, [first], inv);
    assert RowMessages([Row(0, first)]) == [first];
  }

  lemma {:induction false} AccountedThroughout(request: Request, history: seq<Message>, states: seq<State>, actions: seq<Action>, k: nat, inv: nat)
    requires IsRun(states, actions) && states[0] == Start(request, history) && k < |states| && MergesWin(states, actions, k)
    ensures Coherent(states[k]) && Faithful(states[k]) && Accounted(history, states[k], inv) && states[k].spliced == |history|
  {
    hide Step, Enabled, Coherent, Faithful, Merges, MemoryWins, Accounted, BoundFor;
    StartFits(request, history, 0);
    StartIsFaithful(request, history);
    FaithfulThroughout(states, actions, k);
    if k == 0 {
      StartAccounts(request, history, inv);
    } else {
      assert states[k - 1 + 1] == Step(states[k - 1], actions[k - 1]);
      AccountedThroughout(request, history, states, actions, k - 1, inv);
      StepAccounts(history, states[k - 1], actions[k - 1], inv);
      SplicedStays(states[k - 1], actions[k - 1]);
    }
  }

  lemma SplicedStays(s: State, a: Action)
    requires Coherent(s) && Enabled(s, a)
    ensures Step(s, a).spliced == s.spliced
  {
    if a.Gate? { GateEffects(s, a.gate); }
    hide Coherent, GateStep, GateEnabled, RunStep, RunEnabled, Append, Unfinished, FinalCheckpoint, Preserved;
    if a.Run? { RunIssuesNothing(s, a.run); }
  }

  /** What a merge says about a call, in every state that a run reaches while memory has won every
      merge so far: its results in memory, and with them the lost ones exactly when the rows win. */
  lemma MergeSays(request: Request, history: seq<Message>, states: seq<State>, actions: seq<Action>, k: nat, inv: nat)
    requires IsRun(states, actions) && states[0] == Start(request, history) && k < |states| && MergesWin(states, actions, k)
    requires inv in states[k].issued
    ensures var s := states[k];
            |ResultsFor(LongestMessages(s.transcript, s.checkpoint.messages), inv)|
            == |ResultsFor(s.transcript.messages, inv)| + if Lost(s.log) <= |history| then 0 else LostResults(s.log, inv)
  {
    hide IsRun, ResultsFor, RowMessages, MergesWin;
    AccountedThroughout(request, history, states, actions, k, inv);
    MemoryWinsExactlyWhen(states[k]);
    hide Coherent, AllTold, AllAnchored, ControlTold;
    assert |ResultsFor(history, inv)| == 0;
  }

  /** A merge doubles the result of a call to a known tool if and only if more messages were lost than
      earlier runs spliced in, and a lost result of the call was said again or lost more than once. */
  lemma DoubledExactlyWhen(request: Request, history: seq<Message>, states: seq<State>, actions: seq<Action>, k: nat, inv: nat)
    requires IsRun(states, actions) && states[0] == Start(request, history) && k < |states| && MergesWin(states, actions, k)
    requires inv in states[k].issued && states[k].issued[inv].known
    ensures var s := states[k];
            |ResultsFor(LongestMessages(s.transcript, s.checkpoint.messages), inv)| >= 2
            <==> && Lost(s.log) > |history| && LostResults(s.log, inv) >= 1
                 && (ResultsFor(s.transcript.messages, inv) != [] || LostResults(s.log, inv) >= 2)
  {
    hide IsRun, ResultsFor, MergesWin, LongestMessages, Lost, LostResults;
    MergeSays(request, history, states, actions, k, inv);
    OneResultPerCall(request, history, states, actions, k, inv);
  }
}
