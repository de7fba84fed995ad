/** The transcript over whole runs: one result message for every completed call, holding the
    result of the stored record, through crashes that roll the messages back and resumes
    that replay them. */
module ToolTranscript {
  import opened Common
  import opened ToolRecovery
  import opened ToolSafety

  // ---------------------------------------------------------------- results of an invocation

  /** Every result message that names the invocation, wherever it stands. */
  function ResultsFor(messages: seq<Message>, inv: nat): (found: seq<Message>)
    ensures forall m :: m in found ==> m in messages && m.ToolMessage?
  {
    if messages == [] then []
    else
      var last := messages[|messages| - 1];
      ResultsFor(messages[..|messages| - 1], inv) + if last.ToolMessage? && last.inv == Some(inv) then [last] else []
  }

  lemma ResultsAppend(messages: seq<Message>, m: Message, c: Call)
    ensures ResultsFor(messages + [m], c.inv)
         == ResultsFor(messages, c.inv) + if m.ToolMessage? && m.inv == Some(c.inv) then [m] else []
    ensures ResultMessages(messages + [m], c)
         == if Carries(m, c.inv) then [] else ResultMessages(messages, c) + if Answers(m, c) then [m] else []
  {
  }

  lemma {:induction false} ResultsPrefix(shorter: seq<Message>, longer: seq<Message>, inv: nat)
    requires shorter <= longer
    ensures ResultsFor(shorter, inv) <= ResultsFor(longer, inv)
  {
    if shorter != longer {
      ResultsPrefix(shorter, longer[..|longer| - 1], inv);
    }
  }

  lemma {:induction false} NoneNamed(messages: seq<Message>, inv: nat)
    requires forall m :: m in messages && m.ToolMessage? ==> m.inv != Some(inv)
    ensures ResultsFor(messages, inv) == []
  {
    if messages != [] {
      NoneNamed(messages[..|messages| - 1], inv);
    }
  }

  /** The executor's search, which starts after the assistant message carrying the call, finds
      exactly the messages that name the invocation. */
  predicate Anchored(messages: seq<Message>, c: Call) {
    ResultMessages(messages, c) == ResultsFor(messages, c.inv)
  }

  predicate AllAnchored(messages: seq<Message>, calls: seq<Call>) {
    forall k :: 0 <= k < |calls| ==> Anchored(messages, calls[k])
  }

  // ---------------------------------------------------------------- what the transcript may say

  /** One call: its result messages repeat the stored result, and being completed means having one. */
  predicate Told(store: map<nat, Record>, messages: seq<Message>, completed: set<nat>, c: Call) {
    var found := ResultsFor(messages, c.inv);
    && (c.known ==> |found| <= 1)
    && (c.inv in completed ==> found != [])
    && (forall k :: 0 <= k < |found| ==> c.inv in store && store[c.inv].result == Some(found[k].result))
    && (found != [] ==>
          c.inv in store
          && if c.inv in completed then Ended(store[c.inv].status) && !store[c.inv].status.Indeterminate?
             else Settled(store[c.inv]))
  }

  predicate AllTold(issued: map<nat, Call>, store: map<nat, Record>, messages: seq<Message>, completed: set<nat>) {
    && (forall i :: i in issued ==> Told(store, messages, completed, issued[i]))
    && (forall i :: i in completed ==> i in issued)
  }

  /** Calls that the batch has examined hold no result message unless they are completed. */
  predicate Silenced(messages: seq<Message>, completed: set<nat>, calls: seq<Call>) {
    forall k :: 0 <= k < |calls| ==> calls[k].inv in completed || ResultsFor(messages, calls[k].inv) == []
  }

  predicate GateTold(messages: seq<Message>, completed: set<nat>, g: Gate) {
    && g.pos <= |g.pending|
    && AllAnchored(messages, g.pending)
    && Silenced(messages, completed, g.pending[..g.pos]) && Silenced(messages, completed, g.allowed)
    && (g.pos < |g.pending| && g.stage.EarlyResult? && g.pending[g.pos].known ==>
          ResultsFor(messages, g.pending[g.pos].inv) == [])
  }

  predicate ExecutionTold(messages: seq<Message>, completed: set<nat>, e: Execution) {
    && Silenced(messages, completed, e.pending) && Silenced(messages, completed, e.allowed)
    && AllAnchored(messages, e.pending)
    && forall i :: i in e.progress ==> ResultsFor(messages, i) == []
  }

  predicate HarvestTold(messages: seq<Message>, completed: set<nat>, h: Harvest) {
    && Silenced(messages, completed, h.pending) && Silenced(messages, completed, h.allowed)
    && AllAnchored(messages, h.pending)
  }

  predicate ControlTold(s: State) {
    match s.control
    case Inactive => true
    case Looping => true
    case TurnSaved(calls) => AllAnchored(s.transcript.messages, calls)
    case BatchReady(calls) => AllAnchored(s.transcript.messages, calls)
    case Gating(g) => GateTold(s.transcript.messages, s.completed, g)
    case Executing(e) => ExecutionTold(s.transcript.messages, s.completed, e)
    case Collecting(h) => HarvestTold(s.transcript.messages, s.completed, h)
  }

  /** The ids that a preserved checkpoint would record as completed. */
  function Kept(s: State): set<nat> {
    s.context.completed + s.checkpoint.completed
  }

  /** How many messages were lost because a process ended before they were checkpointed. */
  function Lost(log: seq<Event>): nat {
    if log == [] then 0
    else Lost(log[..|log| - 1]) + if log[|log| - 1].ProcessEnded? then |log[|log| - 1].unsaved| else 0
  }

  lemma LostAppend(log: seq<Event>, e: Event)
    ensures Lost(log + [e]) == Lost(log) + if e.ProcessEnded? then |e.unsaved| else 0
  {
  }

  /** Every message ever saved has a row, so the rows outnumber the list by what was lost. */
  predicate RowsAccounted(spliced: nat, t: Transcript, lost: nat) {
    |t.rows| + spliced == |t.messages| + lost
  }

  /** Everything but the batch in progress. */
  predicate Kernel(s: State) {
    && AllTold(s.issued, s.store, s.transcript.messages, s.completed)
    && AllTold(s.issued, s.store, s.transcript.messages, Kept(s))
    && AllTold(s.issued, s.store, s.checkpoint.messages, s.checkpoint.completed)
    && Kept(s) <= s.completed
    && s.checkpoint.messages <= s.transcript.messages
    && AllAnchored(s.checkpoint.messages, s.checkpoint.pending)
    && AllAnchored(s.transcript.messages, s.checkpoint.pending)
    && AllAnchored(s.transcript.messages, s.context.pending)
    && RowsAccounted(s.spliced, s.transcript, Lost(s.log))
  }

  predicate Faithful(s: State) {
    && Kernel(s) && ControlTold(s)
    && (s.control.Inactive? ==> s.checkpoint.messages == s.transcript.messages && s.completed == s.checkpoint.completed)
  }

  // ---------------------------------------------------------------- records

  predicate Unspoken(s: State, i: nat) {
    i in s.issued && i !in s.completed && ResultsFor(s.transcript.messages, i) == []
  }

  lemma ToldElsewhere(issued: map<nat, Call>, store: map<nat, Record>, messages: seq<Message>, completed: set<nat>,
                      i: nat, record: Record)
    requires AllTold(issued, store, messages, completed)
    requires forall j :: j in issued ==> issued[j].inv == j
    requires i !in completed && ResultsFor(messages, i) == []
    ensures AllTold(issued, store[i := record], messages, completed)
  {
  }

  /** Saving the record of an invocation without result messages keeps the transcript faithful. */
  lemma RecordKeepsKernel(s: State, i: nat, record: Record)
    requires Coherent(s) && Kernel(s) && Unspoken(s, i)
    ensures Kernel(SetRecord(s, i, record))
  {
    ResultsPrefix(s.checkpoint.messages, s.transcript.messages, i);
    ToldElsewhere(s.issued, s.store, s.transcript.messages, s.completed, i, record);
    ToldElsewhere(s.issued, s.store, s.transcript.messages, Kept(s), i, record);
    ToldElsewhere(s.issued, s.store, s.checkpoint.messages, s.checkpoint.completed, i, record);
  }

  /** A pending call whose record holds nothing to replay has no result message. */
  lemma UnsettledIsUnspoken(s: State, i: nat)
    requires Coherent(s) && Kernel(s) && i in s.issued
    requires i in s.completed ==> i !in s.store || !Ended(s.store[i].status) || s.store[i].status.Indeterminate?
    requires i !in s.store || !Settled(s.store[i])
    ensures Unspoken(s, i)
  {
  }

  lemma DropNothing(t: Transcript, c: Call)
    requires Anchored(t.messages, c) && ResultsFor(t.messages, c.inv) == []
    ensures DropResults(t, c) == t
  {
  }

  // ---------------------------------------------------------------- appending

  lemma OtherMessageTold(issued: map<nat, Call>, store: map<nat, Record>, messages: seq<Message>, completed: set<nat>, m: Message)
    requires AllTold(issued, store, messages, completed) && !m.ToolMessage?
    ensures AllTold(issued, store, messages + [m], completed)
  {
  }

  lemma ToldNow(store: map<nat, Record>, messages: seq<Message>, completed: set<nat>, c: Call, m: Message, done: bool)
    requires Told(store, messages, completed, c)
    requires m.ToolMessage? && m.inv == Some(c.inv) && c.inv !in completed
    requires c.inv in store && store[c.inv].result == Some(m.result)
    requires c.known ==> ResultsFor(messages, c.inv) == []
    requires if done then Ended(store[c.inv].status) && !store[c.inv].status.Indeterminate? else Settled(store[c.inv])
    ensures Told(store, messages + [m], if done then completed + {c.inv} else completed, c)
  {
  }

  /** A result message for a call that has none, or for an unknown tool, repeats the stored result. */
  lemma ResultTold(issued: map<nat, Call>, store: map<nat, Record>, messages: seq<Message>, completed: set<nat>,
                   c: Call, m: Message, done: bool)
    requires AllTold(issued, store, messages, completed)
    requires forall j :: j in issued ==> issued[j].inv == j
    requires c.inv in issued && issued[c.inv] == c && c.inv !in completed
    requires m.ToolMessage? && m.inv == Some(c.inv)
    requires c.inv in store && store[c.inv].result == Some(m.result)
    requires c.known ==> ResultsFor(messages, c.inv) == []
    requires if done then Ended(store[c.inv].status) && !store[c.inv].status.Indeterminate? else Settled(store[c.inv])
    ensures AllTold(issued, store, messages + [m], if done then completed + {c.inv} else completed)
  {
    var after := if done then completed + {c.inv} else completed;
    forall i | i in issued ensures Told(store, messages + [m], after, issued[i]) {
      ResultsAppend(messages, m, issued[i]);
      if i == c.inv {
        ToldNow(store, messages, completed, c, m, done);
      } else {
        assert Told(store, messages, completed, issued[i]);
      }
    }
  }

  lemma AnchoredAfterResult(messages: seq<Message>, m: Message, calls: seq<Call>)
    requires AllAnchored(messages, calls) && m.ToolMessage? && m.inv.Some?
    ensures AllAnchored(messages + [m], calls)
  {
  }

  lemma AnchoredAfterUser(messages: seq<Message>, m: Message, calls: seq<Call>)
    requires AllAnchored(messages, calls) && m.UserMessage?
    ensures AllAnchored(messages + [m], calls)
  {
  }

  lemma RowInserted(t: Transcript, m: Message, spliced: nat, lost: nat)
    requires RowsAccounted(spliced, t, lost)
    ensures RowsAccounted(spliced, Append(t, m), lost)
  {
  }

  // ---------------------------------------------------------------- gating

  /** The state after a result message of the examined call was appended and the call completed. */
  function Completed(s: State, c: Call, r: Result): State {
    s.(transcript := AppendResult(s.transcript, c, r), completed := s.completed + {c.inv})
  }

  lemma CompletedKeepsKernel(s: State, c: Call, r: Result)
    requires Coherent(s) && Kernel(s)
    requires c.inv in s.issued && s.issued[c.inv] == c && c.inv !in s.completed
    requires c.inv in s.store && s.store[c.inv].result == Some(r) && Settled(s.store[c.inv])
    requires c.known ==> ResultsFor(s.transcript.messages, c.inv) == []
    ensures Kernel(Completed(s, c, r))
  {
    var m := ToolMessage(s.transcript.nextId, Some(c.inv), c.providerId, r);
    var mem := s.transcript.messages;
    ResultTold(s.issued, s.store, mem, s.completed, c, m, true);
    ResultTold(s.issued, s.store, mem, Kept(s), c, m, false);
    AnchoredAfterResult(mem, m, s.checkpoint.pending);
    AnchoredAfterResult(mem, m, s.context.pending);
    RowInserted(s.transcript, m, s.spliced, Lost(s.log));
  }

  lemma CompletedKeepsGate(s: State, c: Call, r: Result)
    requires Coherent(s) && s.control.Gating? && InCall(s) && c == Current(s)
    requires GateTold(s.transcript.messages, s.completed, s.control.gate)
    ensures GateTold(AppendResult(s.transcript, c, r).messages, s.completed + {c.inv},
                     s.control.gate.(pos := s.control.gate.pos + 1, stage := AtCall))
  {
  }

  lemma PresentTold(issued: map<nat, Call>, store: map<nat, Record>, messages: seq<Message>, completed: set<nat>, c: Call)
    requires AllTold(issued, store, messages, completed)
    requires forall j :: j in issued ==> issued[j].inv == j
    requires c.inv in issued && c.inv in store && Settled(store[c.inv]) && ResultsFor(messages, c.inv) != []
    ensures AllTold(issued, store, messages, completed + {c.inv})
  {
  }

  /** A call whose result message is in the transcript already is only marked as completed. */
  lemma PresentKeepsFaithful(s: State)
    requires Coherent(s) && Faithful(s) && AtStoredCall(s) && Settled(CurrentRecord(s))
    requires ResultsFor(s.transcript.messages, Current(s).inv) != []
    ensures Faithful(NextCall(s.(completed := s.completed + {Current(s).inv})))
  {
    hide ResultsFor, Anchored, RowsAccounted;
    var c := Current(s);
    var g := s.control.gate;
    PresentTold(s.issued, s.store, s.transcript.messages, s.completed, c);
    assert g.pending[..g.pos + 1] == g.pending[..g.pos] + [c];
  }

  lemma PresentResult(s: State)
    requires Coherent(s) && Faithful(s) && AtStoredCall(s) && Settled(CurrentRecord(s))
    ensures Anchored(s.transcript.messages, Current(s))
    ensures ResultPresent(s.transcript, Current(s), CurrentRecord(s).result.value)
       <==> ResultsFor(s.transcript.messages, Current(s).inv) != []
  {
    var c := Current(s);
    assert Told(s.store, s.transcript.messages, s.completed, s.issued[c.inv]);
    assert Anchored(s.transcript.messages, s.control.gate.pending[s.control.gate.pos]);
    var found := ResultsFor(s.transcript.messages, c.inv);
    if found != [] { assert found[0] in ResultMessages(s.transcript.messages, c); }
  }

  lemma AbsentKeepsFaithful(s: State, c: Call, r: Result)
    requires Coherent(s) && Faithful(s) && InCall(s) && c == Current(s)
    requires c.inv in s.issued && s.issued[c.inv] == c && c.inv !in s.completed
    requires c.inv in s.store && s.store[c.inv].result == Some(r) && Settled(s.store[c.inv])
    requires c.known ==> ResultsFor(s.transcript.messages, c.inv) == []
    ensures Faithful(NextCall(Completed(s, c, r)))
  {
    hide Coherent, AllTold, AllAnchored, GateTold, RowsAccounted, ResultsFor, Settled;
    CompletedKeepsKernel(s, c, r);
    CompletedKeepsGate(s, c, r);
  }

  lemma FaithfulReplay(s: State)
    requires Coherent(s) && Faithful(s) && AtStoredCall(s) && Settled(CurrentRecord(s))
    ensures Faithful(ReplayStep(s))
  {
    hide Faithful, AllTold, ResultMessages, ResultsFor;
    var c := Current(s);
    var r := CurrentRecord(s).result.value;
    PresentResult(s);
    if ResultsFor(s.transcript.messages, c.inv) == [] {
      DropNothing(s.transcript, c);
      AbsentKeepsFaithful(s, c, r);
    } else {
      PresentKeepsFaithful(s);
    }
  }

  lemma GateRecordKeeps(s: State, record: Record, stage: Stage)
    requires Coherent(s) && Faithful(s) && InCall(s) && Unspoken(s, Current(s).inv)
    ensures Faithful(SetStage(SetRecord(s, Current(s).inv, record), stage))
  {
    hide Coherent, AllTold, AllAnchored, Silenced, RowsAccounted, ResultsFor;
    RecordKeepsKernel(s, Current(s).inv, record);
  }

  /** The record of a call to an unknown tool is only ever written with the same result. */
  lemma FaithfulUnknown(s: State)
    requires Coherent(s) && Faithful(s) && AtStage(s, AtCall) && !Current(s).known
    ensures Faithful(UnknownStep(s))
  {
    var c := Current(s);
    var after := s.store[c.inv := Record(Failed, Some(UnknownToolResult()), 0)];
    UnknownTold(s.issued, s.store, s.transcript.messages, s.completed, c);
    UnknownTold(s.issued, s.store, s.transcript.messages, Kept(s), c);
    UnknownTold(s.issued, s.store, s.checkpoint.messages, s.checkpoint.completed, c);
  }

  lemma UnknownTold(issued: map<nat, Call>, store: map<nat, Record>, messages: seq<Message>, completed: set<nat>, c: Call)
    requires AllTold(issued, store, messages, completed) && RecordsFit(issued, store)
    requires c.inv in issued && issued[c.inv] == c && !c.known && c.inv !in completed
    ensures AllTold(issued, store[c.inv := Record(Failed, Some(UnknownToolResult()), 0)], messages, completed)
  {
  }

  lemma FaithfulReceive(s: State)
    requires Coherent(s) && Faithful(s) && AtKnownCall(s) && Current(s).inv !in s.store
    ensures Faithful(ReceiveStep(s))
  {
    UnsettledIsUnspoken(s, Current(s).inv);
    GateRecordKeeps(s, Record(Received, None, 0), AtCall);
  }

  /** Dropping the results of a call that holds none, and leaving it for a human. */
  lemma FaithfulUnclear(s: State)
    requires Coherent(s) && Faithful(s) && AtStoredCall(s) && Unrepeatable(Current(s), CurrentRecord(s))
    ensures Faithful(UnclearStep(s))
  {
    hide AllTold, ResultsFor, ResultMessages, Registered, RowsAccounted;
    var c := Current(s);
    var g := s.control.gate;
    UnsettledIsUnspoken(s, c.inv);
    assert Anchored(s.transcript.messages, g.pending[g.pos]);
    DropNothing(s.transcript, c);
    assert g.pending[..g.pos + 1] == g.pending[..g.pos] + [c];
    RecordKeepsKernel(s, c.inv, RecordOf(s, c.inv).(status := Indeterminate));
  }

  /** Recovery finds nothing to drop: an interrupted invocation holds no result message. */
  lemma FaithfulRecover(s: State)
    requires Coherent(s) && Faithful(s) && AtRunnableCall(s)
    ensures Faithful(Recover(s, Current(s))) && Recover(s, Current(s)).transcript == s.transcript
    ensures Unspoken(Recover(s, Current(s)), Current(s).inv)
  {
    hide AllTold, ResultsFor, ResultMessages, Registered, RowsAccounted;
    var c := Current(s);
    UnsettledIsUnspoken(s, c.inv);
    assert Anchored(s.transcript.messages, s.control.gate.pending[s.control.gate.pos]);
    DropNothing(s.transcript, c);
  }

  lemma FaithfulReject(s: State)
    requires Coherent(s) && Faithful(s) && AtRunnableCall(s)
    ensures Faithful(RejectStep(s))
  {
    FaithfulRecover(s);
    CoherentRecover(s);
    var t := Recover(s, Current(s));
    hide Coherent, Faithful, Unspoken, Recover;
    GateRecordKeeps(t, RecordOf(t, Current(s).inv).(status := Failed, result := Some(InvalidArgumentsResult())),
                    EarlyResult(InvalidArgumentsResult()));
  }

  lemma FaithfulAccept(s: State)
    requires Coherent(s) && Faithful(s) && AtRunnableCall(s)
    ensures Faithful(AcceptStep(s))
  {
    FaithfulRecover(s);
    CoherentRecover(s);
    var t := Recover(s, Current(s));
    hide Coherent, Faithful, Unspoken, Recover;
    GateRecordKeeps(t, RecordOf(t, Current(s).inv).(status := Validated), AtPolicy);
  }

  lemma FaithfulAppendEarly(s: State)
    requires Coherent(s) && Faithful(s) && AtEarlyResult(s)
    ensures Faithful(AppendEarlyStep(s))
  {
    var c := Current(s);
    assert AppendEarlyStep(s) == NextCall(Completed(s, c, s.control.gate.stage.result));
    AbsentKeepsFaithful(s, c, s.control.gate.stage.result);
  }

  lemma ApprovedKeepsGate(messages: seq<Message>, completed: set<nat>, g: Gate)
    requires GateTold(messages, completed, g) && g.pos < |g.pending| && ResultsFor(messages, g.pending[g.pos].inv) == []
    ensures GateTold(messages, completed, g.(pos := g.pos + 1, stage := AtCall, allowed := g.allowed + [g.pending[g.pos]]))
  {
    hide ResultsFor, AllAnchored;
    assert g.pending[..g.pos + 1] == g.pending[..g.pos] + [g.pending[g.pos]];
  }

  lemma FaithfulApprove(s: State, grant: Grant)
    requires Coherent(s) && Faithful(s) && InCall(s) && Unspoken(s, Current(s).inv)
    ensures Faithful(Approve(s, Current(s), grant))
  {
    hide Coherent, AllTold, AllAnchored, ResultsFor, RowsAccounted, GateTold;
    var c := Current(s);
    ApprovedKeepsGate(s.transcript.messages, s.completed, s.control.gate);
    LostAppend(s.log, Allowed(c, grant));
    RecordKeepsKernel(s, c.inv, RecordOf(s, c.inv).(status := Approved));
  }

  lemma AskedIsUnspoken(s: State)
    requires Coherent(s) && Faithful(s) && (AtStage(s, AtPolicy) || AtStage(s, AwaitingAnswer))
    ensures Unspoken(s, Current(s).inv)
  {
    UnsettledIsUnspoken(s, Current(s).inv);
  }

  lemma FaithfulPolicy(s: State)
    requires Coherent(s) && Faithful(s) && AtStage(s, AtPolicy)
    ensures Faithful(ApplyPolicyStep(s))
  {
    AskedIsUnspoken(s);
    hide Coherent, Faithful, Unspoken;
    var c := Current(s);
    match PolicyVerdict(s.request, c, s.context.scopes)
    case WriteRefused =>
      GateRecordKeeps(s, RecordOf(s, c.inv).(status := Failed, result := Some(WriteRefusedResult())), EarlyResult(WriteRefusedResult()));
    case Refused =>
      GateRecordKeeps(s, RecordOf(s, c.inv).(status := Failed, result := Some(DeniedResult())), EarlyResult(DeniedResult()));
    case Granted(grant) => FaithfulApprove(s, grant);
    case MustAsk => GateRecordKeeps(s, RecordOf(s, c.inv).(status := WaitingApproval), AskSaved);
  }

  /** Recording an answer touches neither messages nor records. */
  lemma AnswerKeepsFaithful(s: State, e: Event, scopes: set<string>)
    requires Coherent(s) && Faithful(s) && e.Answered?
    ensures var t := s.(log := s.log + [e], context := s.context.(scopes := scopes));
            Coherent(t) && Faithful(t)
  {
  }

  lemma FaithfulAnswer(s: State, decision: Decision)
    requires Coherent(s) && Faithful(s) && AtStage(s, AwaitingAnswer)
    ensures Faithful(AnswerStep(s, decision))
  {
    AskedIsUnspoken(s);
    var c := Current(s);
    var effective := if NeedsConfirmation(c) && decision.AllowRun? then AllowOnce else decision;
    var t := s.(log := s.log + [Answered(c, effective)],
                context := if effective.AllowRun? then s.context.(scopes := s.context.scopes + {c.scope}) else s.context);
    AnswerKeepsFaithful(s, Answered(c, effective), t.context.scopes);
    hide Coherent, Faithful;
    if effective.Deny? {
      GateRecordKeeps(t, RecordOf(t, c.inv).(status := Failed, result := Some(DeniedResult())), EarlyResult(DeniedResult()));
    } else {
      FaithfulApprove(t, ByAnswer);
    }
  }

  /** Saving a checkpoint of what is in memory. */
  lemma SavingKeepsKernel(s: State, pending: seq<Call>, phase: Phase)
    requires Kernel(s) && AllAnchored(s.transcript.messages, pending)
    ensures Kernel(s.(checkpoint := Checkpoint(s.transcript.messages, s.completed, pending, phase)))
  {
  }

  lemma AskedKeepsGate(messages: seq<Message>, completed: set<nat>, g: Gate)
    requires GateTold(messages, completed, g)
    ensures GateTold(messages, completed, g.(stage := AwaitingAnswer)) && AllAnchored(messages, g.pending)
  {
    hide AllAnchored, Silenced, ResultsFor;
  }

  lemma FaithfulAsk(s: State)
    requires Coherent(s) && Faithful(s) && AtStage(s, AskSaved)
    ensures Faithful(AskStep(s))
  {
    SavingKeepsKernel(s, s.control.gate.pending, WaitingPhase);
    hide Kernel, Coherent, GateTold;
    AskedKeepsGate(s.transcript.messages, s.completed, s.control.gate);
  }

  lemma GateKeepsFaithful(s: State, a: GateAction)
    requires Coherent(s) && Faithful(s) && GateEnabled(s, a)
    ensures Faithful(GateStep(s, a))
  {
    hide Coherent, Faithful, ResultMessages, InsertRow, PolicyVerdict;
    match a
    case Unknown => FaithfulUnknown(s);
    case Receive => FaithfulReceive(s);
    case Replay => FaithfulReplay(s);
    case Unclear => FaithfulUnclear(s);
    case Reject => FaithfulReject(s);
    case Accept => FaithfulAccept(s);
    case AppendEarly => FaithfulAppendEarly(s);
    case ApplyPolicy => FaithfulPolicy(s);
    case AskCheckpoint => FaithfulAsk(s);
    case Answer(decision) => FaithfulAnswer(s, decision);
  }

  // ---------------------------------------------------------------- executing and harvesting

  lemma ProgressKeepsFaithful(s: State, i: nat, p: Progress)
    requires Faithful(s) && s.control.Executing? && i in s.control.exec.progress
    ensures Faithful(SetProgress(s, i, p))
  {
  }

  lemma OutcomeKeepsFaithful(s: State, i: nat, p: Progress, record: Record)
    requires Coherent(s) && Faithful(s) && s.control.Executing? && i in s.control.exec.progress
    ensures Faithful(SetRecord(SetProgress(s, i, p), i, record))
  {
    hide Registered, AllTold, AllAnchored, Silenced, RowsAccounted, ResultsFor;
    assert Unspoken(s, i);
    RecordKeepsKernel(s, i, record);
  }

  lemma FaithfulStartExecution(s: State)
    requires Coherent(s) && Faithful(s) && RunEnabled(s, StartExecution)
    ensures Faithful(StartExecutionStep(s))
  {
    hide AllTold, RowsAccounted, RecordsFit, ResultsFor, Anchored;
    var g := s.control.gate;
    var m := IssuedBy(g.allowed);
    forall i | i in m ensures ResultsFor(s.transcript.messages, i) == [] {
      var k :| 0 <= k < |g.allowed| && g.allowed[k] == m[i];
      assert ReadyToRun(s.store, s.completed, g.allowed[k]);
    }
    assert g.pending[..g.pos] == g.pending;
    hide Kernel, Coherent, AllAnchored, Silenced, ResultsFor;
  }

  /** A harvested result is appended only when the record ended with it. */
  lemma FaithfulCollect(s: State)
    requires Coherent(s) && Faithful(s) && RunEnabled(s, CollectNext)
    ensures Faithful(CollectNextStep(s))
  {
    hide AllTold, AllAnchored, RowsAccounted, ResultsFor, RecordsFit;
    var h := s.control.harvest;
    var c := h.allowed[h.next];
    assert HarvestReady(s.store, s.completed, s.cancelled, h.outcomes, c);
    var r := h.outcomes[c.inv];
    if Incomplete(s, c.inv, r) {
      hide Coherent, Silenced;
    } else {
      CollectedKeepsKernel(s, c, r);
      CollectedKeepsHarvest(s, c, r);
      hide Kernel, Coherent, HarvestTold;
    }
  }

  /** The state after a harvested result was appended and its call completed. */
  function Collected(s: State, c: Call, r: Result): State {
    s.(transcript := AppendResult(s.transcript, c, r), completed := s.completed + {c.inv},
       context := s.context.(completed := s.context.completed + {c.inv}))
  }

  lemma CollectedKeepsKernel(s: State, c: Call, r: Result)
    requires Coherent(s) && Kernel(s) && Unspoken(s, c.inv) && s.issued[c.inv] == c
    requires c.inv in s.store && s.store[c.inv].result == Some(r)
    requires Ended(s.store[c.inv].status) && !s.store[c.inv].status.Indeterminate?
    ensures Kernel(Collected(s, c, r))
  {
    var m := ToolMessage(s.transcript.nextId, Some(c.inv), c.providerId, r);
    var mem := s.transcript.messages;
    ResultTold(s.issued, s.store, mem, s.completed, c, m, true);
    ResultTold(s.issued, s.store, mem, Kept(s), c, m, true);
    assert Kept(Collected(s, c, r)) == Kept(s) + {c.inv};
    AnchoredAfterResult(mem, m, s.checkpoint.pending);
    AnchoredAfterResult(mem, m, s.context.pending);
    RowInserted(s.transcript, m, s.spliced, Lost(s.log));
    hide Coherent, AllTold, AllAnchored, ResultsFor, RowsAccounted;
  }

  lemma CollectedKeepsHarvest(s: State, c: Call, r: Result)
    requires s.control.Collecting? && HarvestTold(s.transcript.messages, s.completed, s.control.harvest)
    ensures HarvestTold(AppendResult(s.transcript, c, r).messages, s.completed + {c.inv},
                        s.control.harvest.(next := s.control.harvest.next + 1))
  {
  }

  lemma RunKeepsFaithful(s: State, a: RunAction)
    requires Coherent(s) && Faithful(s) && RunEnabled(s, a)
    ensures Faithful(RunStep(s, a))
  {
    hide Coherent, AllTold, AllAnchored, Silenced, RowsAccounted, ResultsFor, Append;
    match a
    case StartExecution => FaithfulStartExecution(s);
    case SkipCancelled(i) => ProgressKeepsFaithful(s, i, Returned(CancelledResult()));
    case ReconcileFound(i, r) =>
      OutcomeKeepsFaithful(s, i, Returned(r), RecordOf(s, i).(status := if r.isError then Indeterminate else Succeeded, result := Some(r)));
    case ReconcileNothing(i) => ProgressKeepsFaithful(s, i, Attempting);
    case SaveAttempt(i) =>
      OutcomeKeepsFaithful(s, i, AttemptSaved, RecordOf(s, i).(status := Running, attempts := RecordOf(s, i).attempts + 1));
    case StartBody(i) =>
      LostAppend(s.log, BodyStarted(s.issued[i]));
      ProgressKeepsFaithful(s, i, BodyRunning);
    case RetryBody(i, _) => ProgressKeepsFaithful(s, i, Attempting);
    case EndBody(i, raw, reconciled) => FaithfulEndBody(s, i, raw, reconciled);
    case EndExecution =>
    case CollectNext => FaithfulCollect(s);
  }

  lemma FaithfulEndBody(s: State, i: nat, raw: Result, reconciled: Option<Result>)
    requires Coherent(s) && Faithful(s) && InBody(s, i)
    ensures Faithful(EndBodyStep(s, i, raw, reconciled))
  {
    var c := s.issued[i];
    var r := Settle(c, raw, reconciled, s.cancelled);
    OutcomeKeepsFaithful(s, i, Returned(TerminalResult(c, r)),
                         RecordOf(s, i).(status := TerminalStatus(c, r), result := Some(TerminalResult(c, r))));
  }

  // ---------------------------------------------------------------- turns

  lemma UnfinishedAnchored(messages: seq<Message>, calls: seq<Call>, completed: set<nat>)
    requires AllAnchored(messages, calls)
    ensures AllAnchored(messages, Unfinished(calls, completed))
  {
  }

  /** Fresh calls have no result message in memory nor in the checkpoint. */
  lemma FreshTold(s: State, calls: seq<Call>, messages: seq<Message>, completed: set<nat>)
    requires RecordsFit(s.issued, s.store) && MayTakeTurn(s, calls)
    requires AllTold(s.issued, s.store, messages, completed) && messages <= s.transcript.messages
    ensures AllTold(s.issued + IssuedBy(calls), s.store, messages, completed)
  {
    var m := IssuedBy(calls);
    forall i | i in s.issued + m ensures Told(s.store, messages, completed, (s.issued + m)[i]) {
      if i in m {
        assert m[i] in calls && Fresh(s, m[i].inv);
        NoneNamed(messages, i);
      } else {
        assert Told(s.store, messages, completed, s.issued[i]);
      }
    }
  }

  lemma AnchoredAfterTurn(messages: seq<Message>, m: Message, calls: seq<Call>, s: State)
    requires m.AssistantMessage? && MayTakeTurn(s, m.calls)
    requires AllAnchored(messages, calls) && Registered(s.issued, calls)
    ensures AllAnchored(messages + [m], calls)
  {
  }

  /** The call carried by the new assistant message has no result after it. */
  lemma AnchoredAtTurn(s: State, m: Message)
    requires m.AssistantMessage? && MayTakeTurn(s, m.calls)
    ensures AllAnchored(s.transcript.messages + [m], m.calls)
  {
    forall k | 0 <= k < |m.calls| ensures Anchored(s.transcript.messages + [m], m.calls[k]) {
      assert m.calls[k] in m.calls && Fresh(s, m.calls[k].inv);
      NoneNamed(s.transcript.messages, m.calls[k].inv);
      ResultsAppend(s.transcript.messages, m, m.calls[k]);
    }
  }

  lemma FaithfulModelTurn(s: State, calls: seq<Call>)
    requires Coherent(s) && Faithful(s) && MayTakeTurn(s, calls)
    ensures Faithful(ModelTurnStep(s, calls))
  {
    hide AllTold, AllAnchored, MayTakeTurn, RowsAccounted, RecordsFit, ResultsFor;
    var m := AssistantMessage(s.transcript.nextId, calls);
    var mem := s.transcript.messages;
    FreshTold(s, calls, mem, s.completed);
    FreshTold(s, calls, mem, Kept(s));
    FreshTold(s, calls, s.checkpoint.messages, s.checkpoint.completed);
    var issued := s.issued + IssuedBy(calls);
    OtherMessageTold(issued, s.store, mem, s.completed, m);
    OtherMessageTold(issued, s.store, mem, Kept(s), m);
    AnchoredAtTurn(s, m);
    AnchoredAfterTurn(mem, m, s.checkpoint.pending, s);
    AnchoredAfterTurn(mem, m, s.context.pending, s);
    RowInserted(s.transcript, m, s.spliced, Lost(s.log));
    hide Registered;
  }

  lemma UserKeepsKernel(s: State)
    requires Kernel(s)
    ensures Kernel(s.(transcript := Append(s.transcript, UserMessage(s.transcript.nextId))))
  {
    var m := UserMessage(s.transcript.nextId);
    var mem := s.transcript.messages;
    OtherMessageTold(s.issued, s.store, mem, s.completed, m);
    OtherMessageTold(s.issued, s.store, mem, Kept(s), m);
    AnchoredAfterUser(mem, m, s.checkpoint.pending);
    AnchoredAfterUser(mem, m, s.context.pending);
    RowInserted(s.transcript, m, s.spliced, Lost(s.log));
    hide AllTold, AllAnchored, RowsAccounted;
  }

  lemma FaithfulLoopCheckpoint(s: State, feedback: bool)
    requires Faithful(s) && TurnEnabled(s, LoopCheckpoint(feedback))
    ensures Faithful(LoopCheckpointStep(s, feedback))
  {
    hide AllTold, RowsAccounted;
    var t := if feedback then s.(transcript := Append(s.transcript, UserMessage(s.transcript.nextId))) else s;
    if feedback { UserKeepsKernel(s); }
    SavingKeepsKernel(t, [], ModelTurnPhase);
    hide Kernel;
  }

  lemma FaithfulStartBatch(s: State)
    requires Coherent(s) && Faithful(s) && s.control.BatchReady?
    ensures Faithful(StartBatchStep(s))
  {
    hide AllTold, AllAnchored, RowsAccounted, Coherent, ResultsFor;
    var mem := s.transcript.messages;
    var pending := Unfinished(s.control.calls, s.completed);
    UnfinishedAnchored(mem, s.control.calls, s.completed);
    LostAppend(s.log, BatchOpened);
    assert pending[..0] == [];
    assert s.completed + s.completed == s.completed;
  }

  lemma FaithfulEndBatch(s: State)
    requires Coherent(s) && Faithful(s) && s.control.Collecting?
    ensures Faithful(EndBatchStep(s))
  {
    hide AllTold, AllAnchored, RowsAccounted, Coherent, ResultsFor, Silenced;
    UnfinishedAnchored(s.transcript.messages, s.control.harvest.pending, s.completed);
    assert s.completed + s.completed == s.completed;
  }

  lemma FaithfulTurnCheckpoint(s: State)
    requires Faithful(s) && s.control.TurnSaved?
    ensures Faithful(TurnCheckpointStep(s))
  {
  }

  lemma TurnKeepsFaithful(s: State, a: TurnAction)
    requires Coherent(s) && Faithful(s) && TurnEnabled(s, a)
    ensures Faithful(TurnStep(s, a))
  {
    match a
    case ModelTurn(calls) => FaithfulModelTurn(s, calls);
    case TurnCheckpoint => FaithfulTurnCheckpoint(s);
    case LoopCheckpoint(feedback) => FaithfulLoopCheckpoint(s, feedback);
    case StartBatch => FaithfulStartBatch(s);
    case AbandonBatch => hide Kernel;
    case EndBatch => FaithfulEndBatch(s);
  }

  // ---------------------------------------------------------------- stopping and resuming

  /** The list in memory is preserved exactly while no more messages were lost than earlier runs spliced in. */
  lemma MemoryWinsExactlyWhen(s: State)
    requires s.checkpoint.messages <= s.transcript.messages && RowsAccounted(s.spliced, s.transcript, Lost(s.log))
    ensures LongestMessages(s.transcript, s.checkpoint.messages) == s.transcript.messages <==> Lost(s.log) <= s.spliced
  {
  }

  lemma FaithfulPreserve(s: State)
    requires Faithful(s) && Lost(s.log) <= s.spliced
    ensures Faithful(PreserveStep(s))
  {
    hide AllTold, AllAnchored, RowsAccounted, GateTold, ExecutionTold, HarvestTold, Kept, LongestMessages;
    UnfinishedAnchored(s.transcript.messages, s.checkpoint.pending, Kept(s));
    MemoryWinsExactlyWhen(s);
    KeptByPreserve(s);
  }

  lemma KeptByPreserve(s: State)
    ensures Preserved(s).completed == Kept(s) == Kept(PreserveStep(s)) && s.checkpoint.completed <= Kept(s)
  {
  }

  /** Leaving memory keeps the transcript faithful to whatever checkpoint remains. */
  lemma FaithfulForget(s: State, cp: Checkpoint)
    requires Kernel(s) && cp.messages <= s.transcript.messages
    requires AllTold(s.issued, s.store, cp.messages, cp.completed) && AllAnchored(cp.messages, cp.pending)
    ensures Faithful(Forget(s, cp))
  {
    hide AllTold, AllAnchored;
    LostAppend(s.log, ProcessEnded(Unsaved(s, cp)));
    assert Kept(Forget(s, cp)) == cp.completed;
    NothingAnchored(cp.messages);
  }

  lemma FaithfulFinish(s: State, resumable: bool)
    requires Faithful(s) && Lost(s.log) <= s.spliced
    ensures Faithful(Forget(s, FinalCheckpoint(s, resumable)))
  {
    hide AllTold, AllAnchored, RowsAccounted, ControlTold, LongestMessages;
    var mem := s.transcript.messages;
    MemoryWinsExactlyWhen(s);
    UnfinishedAnchored(mem, s.checkpoint.pending, Kept(s));
    UnfinishedAnchored(mem, s.context.pending, Kept(s));
    NothingAnchored(mem);
    FaithfulForget(s, FinalCheckpoint(s, resumable));
  }

  lemma NothingAnchored(messages: seq<Message>)
    ensures AllAnchored(messages, [])
  {
  }

  /** Lease recovery marks running calls only, and none of them has a result message. */
  lemma FaithfulRecoverLease(s: State)
    requires Coherent(s) && Faithful(s) && s.control.Inactive?
    ensures Faithful(RecoverLeaseStep(s))
  {
    hide ResultsFor, AllAnchored, RowsAccounted;
    RecoveredTold(s, s.transcript.messages, s.completed);
    RecoveredTold(s, s.transcript.messages, Kept(s));
    RecoveredTold(s, s.checkpoint.messages, s.checkpoint.completed);
    hide AllTold;
  }

  lemma RecoveredTold(s: State, messages: seq<Message>, completed: set<nat>)
    requires AllTold(s.issued, s.store, messages, completed)
    ensures AllTold(s.issued, RecoveredStore(s), messages, completed)
  {
  }

  lemma FaithfulResolve(s: State, i: nat, human: HumanDecision)
    requires Coherent(s) && Faithful(s) && s.control.Inactive? && StatusOf(s, i) == Some(Indeterminate)
    ensures Faithful(ResolveStep(s, i, human))
  {
    hide AllTold, AllAnchored, ResultsFor, RowsAccounted, Registered, ControlFits;
    UnsettledIsUnspoken(s, i);
    LostAppend(s.log, HumanResolved(i, human));
    RecordKeepsKernel(s, i, ResolvedRecord(s.store[i], human));
  }

  /** The state that resuming starts from, before a new user message is appended. */
  function Reloaded(s: State): State {
    var cp := s.checkpoint;
    var pending := Unfinished(cp.pending, cp.completed);
    s.(transcript := s.transcript.(messages := cp.messages), completed := cp.completed, context := Context(cp.completed, pending, {}))
  }

  lemma ReloadedKeepsKernel(s: State)
    requires Faithful(s) && s.control.Inactive?
    ensures Kernel(Reloaded(s)) && AllAnchored(s.transcript.messages, Unfinished(s.checkpoint.pending, s.checkpoint.completed))
  {
  }

  lemma FaithfulResume(s: State, withInput: bool)
    requires Faithful(s) && s.control.Inactive?
    ensures Faithful(ResumeStep(s, withInput))
  {
    hide AllTold, AllAnchored, Unfinished, RowsAccounted;
    ReloadedKeepsKernel(s);
    var t := Reloaded(s);
    if withInput {
      UserKeepsKernel(t);
      AnchoredAfterUser(s.transcript.messages, UserMessage(t.transcript.nextId), t.context.pending);
    }
    hide Kernel, AllAnchored, Unfinished;
  }

  /** The actions that write the longest list into the checkpoint. */
  predicate Merges(a: Action) {
    a.Stop? && (a.stop.PreserveCheckpoint? || a.stop.Finish?)
  }

  /** Merging would keep the list in memory. */
  predicate MemoryWins(s: State) {
    Lost(s.log) <= s.spliced
  }

  lemma StopKeepsFaithful(s: State, a: StopAction)
    requires Coherent(s) && Faithful(s) && StopEnabled(s, a) && (Merges(Stop(a)) ==> MemoryWins(s))
    ensures Faithful(StopStep(s, a))
  {
    hide Coherent, Kernel;
    match a
    case RequestCancel => FaithfulCancel(s);
    case PreserveCheckpoint => FaithfulPreserve(s);
    case Finish(resumable) => FaithfulFinish(s, resumable);
    case Crash => FaithfulCrash(s);
    case RecoverLease => FaithfulRecoverLease(s);
    case ResolveByHuman(i, human) => FaithfulResolve(s, i, human);
    case Resume(withInput) => FaithfulResume(s, withInput);
  }

  lemma FaithfulCancel(s: State)
    requires Faithful(s)
    ensures Faithful(CancelStep(s))
  {
  }

  lemma FaithfulCrash(s: State)
    requires Faithful(s)
    ensures Faithful(Forget(s, s.checkpoint))
  {
    hide AllTold, AllAnchored, ControlTold, RowsAccounted;
    FaithfulForget(s, s.checkpoint);
  }

  lemma StepKeepsFaithful(s: State, a: Action)
    requires Coherent(s) && Faithful(s) && Enabled(s, a) && (Merges(a) ==> MemoryWins(s))
    ensures Faithful(Step(s, a))
  {
    hide Coherent, Faithful, GateStep, RunStep, TurnStep, StopStep, GateEnabled, RunEnabled, TurnEnabled, StopEnabled;
    match a
    case Gate(g) => GateKeepsFaithful(s, g);
    case Run(r) => RunKeepsFaithful(s, r);
    case Turn(t) => TurnKeepsFaithful(s, t);
    case Stop(x) => StopKeepsFaithful(s, x);
  }

  // ---------------------------------------------------------------- whole runs

  /** In every merge of a stretch of a run the list in memory won. */
  ghost predicate MergesWin(states: seq<State>, actions: seq<Action>, k: nat)
    requires k <= |actions| <= |states|
  {
    forall j :: 0 <= j < k && Merges(actions[j]) ==> MemoryWins(states[j])
  }

  lemma StartIsFaithful(request: Request, history: seq<Message>)
    ensures Faithful(Start(request, history))
  {
  }

  lemma {:induction false} FaithfulThroughout(states: seq<State>, actions: seq<Action>, k: nat)
    requires IsRun(states, actions) && Coherent(states[0]) && Faithful(states[0]) && k < |states|
    requires MergesWin(states, actions, k)
    ensures Coherent(states[k]) && Faithful(states[k])
  {
    hide Step, Enabled, Coherent, Faithful, Merges, MemoryWins;
    CoherentThroughout(states, actions, k);
    if k > 0 {
      assert states[k - 1 + 1] == Step(states[k - 1], actions[k - 1]);
      FaithfulThroughout(states, actions, k - 1);
      StepKeepsFaithful(states[k - 1], actions[k - 1]);
    }
  }

  /** Over whole runs, through any crashes and resumes, while memory won every merge so far: a call
      to a known tool has at most one result message; a completed call has exactly one; and every result
      message repeats the stored result of an invocation that ended. */
  lemma OneResultPerCall(request: Request, history: seq<Message>, states: seq<State>, actions: seq<Action>, k: nat, i: nat)
    requires IsRun(states, actions) && states[0] == Start(request, history) && k < |states|
    requires MergesWin(states, actions, k) && i in states[k].issued && states[k].issued[i].known
    ensures var t := states[k];
            var found := ResultsFor(t.transcript.messages, i);
            && |found| <= 1
            && (i in t.completed ==> |found| == 1)
            && (|found| == 1 ==> i in t.store && t.store[i].result == Some(found[0].result)
                                 && (i in t.completed || Settled(t.store[i])))
  {
    hide IsRun, ResultsFor, BoundFor, MergesWin;
    StartFits(request, history, 0);
    StartIsFaithful(request, history);
    FaithfulThroughout(states, actions, k);
    assert Told(states[k].store, states[k].transcript.messages, states[k].completed, states[k].issued[i]);
  }

  /** When a batch has been harvested, its completed calls are exactly those with a result message. */
  lemma CompletedMeansAnswered(request: Request, history: seq<Message>, states: seq<State>, actions: seq<Action>, k: nat, c: Call)
    requires IsRun(states, actions) && states[0] == Start(request, history) && k < |states|
    requires MergesWin(states, actions, k) && TurnEnabled(states[k], EndBatch)
    requires c in states[k].control.harvest.pending
    ensures c.inv in states[k].completed <==> ResultsFor(states[k].transcript.messages, c.inv) != []
  {
    hide IsRun, ResultsFor, BoundFor, MergesWin;
    StartFits(request, history, 0);
    StartIsFaithful(request, history);
    FaithfulThroughout(states, actions, k);
    var s := states[k];
    var j :| 0 <= j < |s.control.harvest.pending| && s.control.harvest.pending[j] == c;
    assert Told(s.store, s.transcript.messages, s.completed, s.issued[c.inv]);
  }
}
