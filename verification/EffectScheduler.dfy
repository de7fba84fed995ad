/** Running batches of tool calls: parallel-safe segments between barriers, a limit on how many run at
    once, and locks for writes and for browser contexts that all batches share.

    Items are assumed not to raise; one action is the code between two points of suspension. */
module EffectScheduler {
  import opened Common

  datatype Effect = Pure | WorkspaceRead | WorkspaceWrite | Process | Network | Destructive

  /** An explicit `safe` flag overrides what the effect implies. */
  datatype Item = Item(effect: Effect, context: Option<string>, safe: Option<bool>)

  /** Not launched yet; waiting for a slot; holding one and waiting for a lock; running; done. */
  datatype Status = Idle | Waiting | Slotted | Running | Done(value: int)

  /** Where the loop over the items stands: collecting a segment, waiting for it, waiting for a single
      item, or at its end. */
  datatype Main = Filling | Draining | Alone | Finished

  datatype Batch = Batch(
    items: seq<Item>, limit: nat, permits: int, index: nat, segment: nat, main: Main,
    status: seq<Status>, starts: seq<nat>, results: seq<Option<int>>)

  /** The place of an item: its batch and its position. */
  datatype Place = Place(batch: nat, index: nat)

  datatype State = State(batches: map<nat, Batch>, writer: Option<Place>, holders: map<string, Place>)

  datatype Action =
    | Submit(batch: nat, items: seq<Item>, maxConcurrency: int)
    | Proceed(batch: nat)
    | TakeSlot(at: Place)
    | Enter(at: Place)
    | Leave(at: Place, value: int)

  predicate ParallelSafe(item: Item) {
    if item.safe.Some? then item.safe.value else item.effect.Pure? || item.effect.WorkspaceRead? || item.effect.Network?
  }

  /** The browser context an item is bound to; an empty id is none. */
  function ContextOf(item: Item): Option<string> {
    if item.context == Some("") then None else item.context
  }

  /** Items that serialise on the write lock; a browser context takes precedence over it. */
  predicate NeedsWrite(item: Item) {
    ContextOf(item).None? && (item.effect.WorkspaceWrite? || item.effect.Destructive? || item.effect.Process?)
  }

  // ---------------------------------------------------------------- one batch

  function NewBatch(items: seq<Item>, maxConcurrency: int): Batch {
    var limit: nat := if maxConcurrency > 1 then maxConcurrency else 1;
    Batch(items, limit, limit, 0, 0, Filling, seq(|items|, i => Idle), seq(|items|, i => 0), seq(|items|, i => None))
  }

  /** The first item of the segment that is being collected or waited for. */
  function Low(b: Batch): int {
    b.index - b.segment
  }

  predicate AllDone(b: Batch, from: int, until: int) {
    forall i :: 0 <= i < |b.status| && from <= i < until ==> b.status[i].Done?
  }

  predicate NoneIdle(b: Batch, from: int, until: int) {
    forall i :: 0 <= i < |b.status| && from <= i < until ==> !b.status[i].Idle?
  }

  predicate AllIdle(b: Batch, from: int) {
    forall i :: 0 <= i < |b.status| && from <= i ==> b.status[i].Idle?
  }

  function Launched(status: seq<Status>, from: int, until: int): (r: seq<Status>)
    ensures |r| == |status|
    ensures forall i :: 0 <= i < |r| ==> r[i] == if from <= i < until then Waiting else status[i]
  {
    seq(|status|, i requires 0 <= i < |status| => if from <= i < until then Waiting else status[i])
  }

  predicate MayProceed(b: Batch) {
    match b.main
    case Filling => true
    case Draining => AllDone(b, Low(b), b.index)
    case Alone => AllDone(b, b.index, b.index + 1)
    case Finished => false
  }

  function LaunchAlone(b: Batch): Batch {
    b.(main := Alone, status := Launched(b.status, b.index, b.index + 1))
  }

  function LaunchSegment(b: Batch): Batch {
    b.(main := Draining, status := Launched(b.status, Low(b), b.index))
  }

  /** The next turn of the loop over the items. */
  function Proceeded(b: Batch): Batch {
    match b.main
    case Filling =>
      if b.index < |b.items| && ParallelSafe(b.items[b.index]) then b.(index := b.index + 1, segment := b.segment + 1)
      else if b.segment > 0 then LaunchSegment(b)
      else if b.index < |b.items| then LaunchAlone(b)
      else b.(main := Finished)
    case Draining =>
      if b.index < |b.items| then LaunchAlone(b.(segment := 0)) else b.(segment := 0, main := Finished)
    case Alone => b.(index := b.index + 1, main := Filling)
    case Finished => b
  }

  function WithStatus(b: Batch, i: nat, status: Status): Batch
    requires i < |b.status|
  {
    b.(status := b.status[i := status])
  }

  predicate Occupies(s: Status) {
    s.Slotted? || s.Running?
  }

  function Occupying(status: seq<Status>): set<nat> {
    set i: nat | i < |status| && Occupies(status[i])
  }

  // ---------------------------------------------------------------- all batches

  predicate Stands(s: State, at: Place, status: Status) {
    at.batch in s.batches && at.index < |s.batches[at.batch].status| && at.index < |s.batches[at.batch].items|
    && s.batches[at.batch].status[at.index] == status
  }

  function ItemAt(s: State, at: Place): Item
    requires at.batch in s.batches && at.index < |s.batches[at.batch].items|
  {
    s.batches[at.batch].items[at.index]
  }

  predicate LockFree(s: State, item: Item) {
    if ContextOf(item).Some? then ContextOf(item).value !in s.holders
    else NeedsWrite(item) ==> s.writer.None?
  }

  predicate Enabled(s: State, a: Action) {
    match a
    case Submit(batch, _, _) => batch !in s.batches
    case Proceed(batch) => batch in s.batches && MayProceed(s.batches[batch])
    case TakeSlot(at) => Stands(s, at, Waiting) && s.batches[at.batch].permits > 0
    case Enter(at) => Stands(s, at, Slotted) && at.index < |s.batches[at.batch].starts| && LockFree(s, ItemAt(s, at))
    case Leave(at, _) => Stands(s, at, Running) && at.index < |s.batches[at.batch].results|
  }

  function Put(s: State, batch: nat, b: Batch): State {
    s.(batches := s.batches[batch := b])
  }

  function Lock(s: State, at: Place, item: Item): State {
    if ContextOf(item).Some? then s.(holders := s.holders[ContextOf(item).value := at])
    else if NeedsWrite(item) then s.(writer := Some(at))
    else s
  }

  function Unlock(s: State, item: Item): State {
    if ContextOf(item).Some? then s.(holders := s.holders - {ContextOf(item).value})
    else if NeedsWrite(item) then s.(writer := None)
    else s
  }

  function TakeSlotStep(b: Batch, i: nat): Batch
    requires i < |b.status|
  {
    WithStatus(b, i, Slotted).(permits := b.permits - 1)
  }

  function EnterStep(b: Batch, i: nat): Batch
    requires i < |b.status| && i < |b.starts|
  {
    WithStatus(b, i, Running).(starts := b.starts[i := b.starts[i] + 1])
  }

  function LeaveStep(b: Batch, i: nat, value: int): Batch
    requires i < |b.status| && i < |b.results|
  {
    WithStatus(b, i, Done(value)).(results := b.results[i := Some(value)], permits := b.permits + 1)
  }

  function Step(s: State, a: Action): State
    requires Enabled(s, a)
  {
    match a
    case Submit(batch, items, maxConcurrency) => Put(s, batch, NewBatch(items, maxConcurrency))
    case Proceed(batch) => Put(s, batch, Proceeded(s.batches[batch]))
    case TakeSlot(at) => Put(s, at.batch, TakeSlotStep(s.batches[at.batch], at.index))
    case Enter(at) => Lock(Put(s, at.batch, EnterStep(s.batches[at.batch], at.index)), at, ItemAt(s, at))
    case Leave(at, value) => Unlock(Put(s, at.batch, LeaveStep(s.batches[at.batch], at.index, value)), ItemAt(s, at))
  }

  ghost predicate IsRun(states: seq<State>, actions: seq<Action>) {
    && |states| == |actions| + 1
    && forall k {:trigger actions[k]} :: 0 <= k < |actions| ==>
         Enabled(states[k], actions[k]) && states[k + 1] == Step(states[k], actions[k])
  }

  // ---------------------------------------------------------------- what a batch keeps

  /** What is recorded about an item follows from its status. */
  predicate ItemFits(status: Status, starts: nat, result: Option<int>) {
    && starts == (if status.Running? || status.Done? then 1 else 0)
    && result == (if status.Done? then Some(status.value) else None)
  }

  predicate Sized(b: Batch) {
    && |b.status| == |b.items| && |b.starts| == |b.items| && |b.results| == |b.items|
    && b.limit >= 1 && b.segment <= b.index <= |b.items|
  }

  predicate ItemsFit(b: Batch)
    requires Sized(b)
  {
    forall i :: 0 <= i < |b.items| ==> ItemFits(b.status[i], b.starts[i], b.results[i])
  }

  /** Everything before the segment is done, the segment is parallel-safe, and nothing after it was launched. */
  predicate MainFits(b: Batch)
    requires Sized(b)
  {
    && AllDone(b, 0, Low(b))
    && (forall i :: Low(b) <= i < b.index ==> ParallelSafe(b.items[i]))
    && match b.main
       case Filling => AllIdle(b, Low(b))
       case Draining => b.segment > 0 && NoneIdle(b, Low(b), b.index) && AllIdle(b, b.index) && (b.index < |b.items| ==> !ParallelSafe(b.items[b.index]))
       case Alone => b.segment == 0 && b.index < |b.items| && !ParallelSafe(b.items[b.index])
                     && NoneIdle(b, b.index, b.index + 1) && AllIdle(b, b.index + 1)
       case Finished => b.segment == 0 && b.index == |b.items|
  }

  predicate SlotsFit(b: Batch) {
    b.permits >= 0 && b.permits + |Occupying(b.status)| == b.limit
  }

  predicate BatchFits(b: Batch) {
    Sized(b) && ItemsFit(b) && MainFits(b) && SlotsFit(b)
  }

  lemma NewFits(items: seq<Item>, maxConcurrency: int)
    ensures BatchFits(NewBatch(items, maxConcurrency))
  {
  }

  lemma AloneFits(b: Batch)
    requires Sized(b) && ItemsFit(b) && SlotsFit(b) && AllDone(b, 0, b.index) && b.segment == 0
    requires b.index < |b.items| && !ParallelSafe(b.items[b.index]) && AllIdle(b, b.index)
    ensures BatchFits(LaunchAlone(b))
  {
  }

  lemma SegmentFits(b: Batch)
    requires BatchFits(b) && b.main.Filling? && b.segment > 0
    requires b.index < |b.items| ==> !ParallelSafe(b.items[b.index])
    ensures BatchFits(LaunchSegment(b))
  {
  }

  lemma ProceedFits(b: Batch)
    requires BatchFits(b) && MayProceed(b)
    ensures BatchFits(Proceeded(b))
  {
    hide ParallelSafe, Occupying;
    match b.main
    case Filling =>
      if b.index < |b.items| && ParallelSafe(b.items[b.index]) {
      } else if b.segment > 0 {
        SegmentFits(b);
      } else if b.index < |b.items| {
        AloneFits(b);
      }
    case Draining =>
      if b.index < |b.items| { AloneFits(b.(segment := 0)); }
    case Alone =>
  }

  lemma OccupyingUpdate(status: seq<Status>, i: nat, after: Status)
    requires i < |status|
    ensures Occupying(status[i := after]) == if Occupies(after) then Occupying(status) + {i} else Occupying(status) - {i}
  {
  }

  lemma TakeSlotFits(b: Batch, i: nat)
    requires BatchFits(b) && i < |b.status| && b.status[i].Waiting? && b.permits > 0
    ensures BatchFits(TakeSlotStep(b, i))
  {
    OccupyingUpdate(b.status, i, Slotted);
    assert i !in Occupying(b.status);
    hide ParallelSafe, Occupying;
  }

  lemma EnterFits(b: Batch, i: nat)
    requires BatchFits(b) && i < |b.status| && b.status[i].Slotted?
    ensures BatchFits(EnterStep(b, i))
  {
    OccupyingUpdate(b.status, i, Running);
    assert Occupying(b.status) + {i} == Occupying(b.status);
    hide ParallelSafe, Occupying;
  }

  lemma LeaveFits(b: Batch, i: nat, value: int)
    requires BatchFits(b) && i < |b.status| && b.status[i].Running?
    ensures BatchFits(LeaveStep(b, i, value))
  {
    OccupyingUpdate(b.status, i, Done(value));
    assert i in Occupying(b.status);
    hide ParallelSafe, Occupying;
  }

  // ---------------------------------------------------------------- the shared locks

  /** A running item that needs a lock is the one that holds it, and only running items hold locks. */
  ghost predicate LocksFit(s: State) {
    && (forall batch, i :: Stands(s, Place(batch, i), Running) ==> HoldsItsLock(s, Place(batch, i)))
    && (s.writer.Some? ==> Stands(s, s.writer.value, Running) && NeedsWrite(ItemAt(s, s.writer.value)))
    && (forall c :: c in s.holders ==> Stands(s, s.holders[c], Running) && ContextOf(ItemAt(s, s.holders[c])) == Some(c))
  }

  predicate HoldsItsLock(s: State, at: Place)
    requires at.batch in s.batches && at.index < |s.batches[at.batch].items|
  {
    var item := ItemAt(s, at);
    && (NeedsWrite(item) ==> s.writer == Some(at))
    && (ContextOf(item).Some? ==> ContextOf(item).value in s.holders && s.holders[ContextOf(item).value] == at)
  }

  ghost predicate Fits(s: State) {
    (forall batch :: batch in s.batches ==> BatchFits(s.batches[batch])) && LocksFit(s)
  }

  /** A change to one batch that starts and ends no item leaves the locks as they are. */
  predicate SameRunning(s: State, batch: nat, b: Batch) {
    if batch in s.batches then
      && b.items == s.batches[batch].items && |b.status| == |s.batches[batch].status|
      && forall i :: 0 <= i < |b.status| ==> (b.status[i].Running? <==> s.batches[batch].status[i].Running?)
    else forall i :: 0 <= i < |b.status| ==> !b.status[i].Running?
  }

  lemma QuietKeepsLocks(s: State, batch: nat, b: Batch)
    requires LocksFit(s) && SameRunning(s, batch, b)
    ensures LocksFit(Put(s, batch, b))
  {
  }

  lemma ProceedKeepsRunning(s: State, batch: nat)
    requires batch in s.batches && BatchFits(s.batches[batch]) && MayProceed(s.batches[batch])
    ensures SameRunning(s, batch, Proceeded(s.batches[batch]))
  {
  }

  lemma EnterKeepsLocks(s: State, at: Place)
    requires LocksFit(s) && Stands(s, at, Slotted) && at.index < |s.batches[at.batch].starts| && LockFree(s, ItemAt(s, at))
    ensures LocksFit(Lock(Put(s, at.batch, EnterStep(s.batches[at.batch], at.index)), at, ItemAt(s, at)))
  {
    var item := ItemAt(s, at);
    var t := Lock(Put(s, at.batch, EnterStep(s.batches[at.batch], at.index)), at, item);
    forall batch, i ensures Stands(t, Place(batch, i), Running) <==> Stands(s, Place(batch, i), Running) || Place(batch, i) == at {
    }
    forall batch, i | Stands(t, Place(batch, i), Running) ensures HoldsItsLock(t, Place(batch, i)) {
      if Place(batch, i) != at { assert HoldsItsLock(s, Place(batch, i)); }
    }
    if s.writer.Some? { assert s.writer.value == Place(s.writer.value.batch, s.writer.value.index); }
    assert at == Place(at.batch, at.index);
  }

  /** What runs when an item has left. */
  lemma RunningAfterLeave(s: State, at: Place, value: int, other: Place)
    requires Stands(s, at, Running) && at.index < |s.batches[at.batch].results|
    ensures var t := Unlock(Put(s, at.batch, LeaveStep(s.batches[at.batch], at.index, value)), ItemAt(s, at));
            && (Stands(t, other, Running) <==> Stands(s, other, Running) && other != at)
            && (Stands(t, other, Running) ==> ItemAt(t, other) == ItemAt(s, other))
  {
  }

  lemma LeaveKeepsLocks(s: State, at: Place, value: int)
    requires LocksFit(s) && Stands(s, at, Running) && at.index < |s.batches[at.batch].results|
    ensures LocksFit(Unlock(Put(s, at.batch, LeaveStep(s.batches[at.batch], at.index, value)), ItemAt(s, at)))
  {
    var t := Unlock(Put(s, at.batch, LeaveStep(s.batches[at.batch], at.index, value)), ItemAt(s, at));
    assert at == Place(at.batch, at.index) && HoldsItsLock(s, Place(at.batch, at.index));
    forall other: Place
      ensures (Stands(t, other, Running) <==> Stands(s, other, Running) && other != at)
              && (Stands(t, other, Running) ==> ItemAt(t, other) == ItemAt(s, other)) {
      RunningAfterLeave(s, at, value, other);
    }
    hide Stands, ItemAt, NeedsWrite, ContextOf, LeaveStep;
    forall batch, i | Stands(t, Place(batch, i), Running) ensures HoldsItsLock(t, Place(batch, i)) {
      assert HoldsItsLock(s, Place(batch, i));
    }
  }

  lemma StepFits(s: State, a: Action)
    requires Fits(s) && Enabled(s, a)
    ensures Fits(Step(s, a))
  {
    hide BatchFits, LocksFit;
    match a
    case Submit(batch, items, maxConcurrency) =>
      NewFits(items, maxConcurrency);
      QuietKeepsLocks(s, batch, NewBatch(items, maxConcurrency));
    case Proceed(batch) =>
      ProceedFits(s.batches[batch]);
      ProceedKeepsRunning(s, batch);
      QuietKeepsLocks(s, batch, Proceeded(s.batches[batch]));
    case TakeSlot(at) =>
      TakeSlotFits(s.batches[at.batch], at.index);
      QuietKeepsLocks(s, at.batch, TakeSlotStep(s.batches[at.batch], at.index));
    case Enter(at) =>
      EnterFits(s.batches[at.batch], at.index);
      EnterKeepsLocks(s, at);
    case Leave(at, value) =>
      LeaveFits(s.batches[at.batch], at.index, value);
      LeaveKeepsLocks(s, at, value);
  }

  lemma {:induction false} FitsThroughout(states: seq<State>, actions: seq<Action>, k: nat)
    requires IsRun(states, actions) && Fits(states[0]) && k < |states|
    ensures Fits(states[k])
  {
    hide Fits, Enabled, Step;
    if k > 0 {
      FitsThroughout(states, actions, k - 1);
      StepFits(states[k - 1], actions[k - 1]);
      assert states[k - 1 + 1] == Step(states[k - 1], actions[k - 1]);
    }
  }

  // ---------------------------------------------------------------- over whole runs

  function Start(): State {
    State(map[], None, map[])
  }

  function RunningItems(b: Batch): set<nat> {
    set i: nat | i < |b.status| && b.status[i].Running?
  }

  /** Barriers: an item that was launched has every earlier item done, unless both are parallel-safe. */
  lemma Barrier(states: seq<State>, actions: seq<Action>, k: nat, batch: nat, i: nat, j: nat)
    requires IsRun(states, actions) && states[0] == Start() && k < |states| && batch in states[k].batches
    requires var b := states[k].batches[batch];
             i < j < |b.items| && j < |b.status| && !b.status[j].Idle? && !(ParallelSafe(b.items[i]) && ParallelSafe(b.items[j]))
    ensures states[k].batches[batch].status[i].Done?
  {
    assert Fits(Start());
    FitsThroughout(states, actions, k);
    hide IsRun, ParallelSafe;
    var b := states[k].batches[batch];
    assert BatchFits(b);
  }

  /** An item says itself that it is safe beside others, or says nothing and does not write. */
  predicate HarmlessBeside(item: Item) {
    item.safe == Some(true) || (item.safe.None? && (item.effect.Pure? || item.effect.WorkspaceRead? || item.effect.Network?))
  }

  /** Two items of a batch run at the same time only if both are harmless beside others. */
  lemma TogetherOnlyIfHarmless(states: seq<State>, actions: seq<Action>, k: nat, batch: nat, i: nat, j: nat)
    requires IsRun(states, actions) && states[0] == Start() && k < |states| && i != j
    requires Stands(states[k], Place(batch, i), Running) && Stands(states[k], Place(batch, j), Running)
    ensures HarmlessBeside(states[k].batches[batch].items[i]) && HarmlessBeside(states[k].batches[batch].items[j])
  {
    hide IsRun;
    if i < j {
      if !(ParallelSafe(states[k].batches[batch].items[i]) && ParallelSafe(states[k].batches[batch].items[j])) {
        Barrier(states, actions, k, batch, i, j);
      }
    } else {
      if !(ParallelSafe(states[k].batches[batch].items[i]) && ParallelSafe(states[k].batches[batch].items[j])) {
        Barrier(states, actions, k, batch, j, i);
      }
    }
  }

  /** Harmless items between barriers are launched together: none waits for another to be done. */
  lemma HarmlessGoTogether(b: Batch)
    requires BatchFits(b) && b.main.Filling? && b.index < |b.items| && HarmlessBeside(b.items[b.index])
    ensures Proceeded(b) == b.(index := b.index + 1, segment := b.segment + 1)
  {
  }

  /** No batch runs more items at once than its limit, which is at least one. */
  lemma Limited(states: seq<State>, actions: seq<Action>, k: nat, batch: nat)
    requires IsRun(states, actions) && states[0] == Start() && k < |states| && batch in states[k].batches
    ensures |RunningItems(states[k].batches[batch])| <= states[k].batches[batch].limit
  {
    assert Fits(Start());
    FitsThroughout(states, actions, k);
    hide IsRun;
    var b := states[k].batches[batch];
    assert BatchFits(b);
    SubsetIsSmaller(RunningItems(b), Occupying(b.status));
  }

  /** Two writes, process runs or destructive items without a context never run at the same time, nor
      do two items of the same context, whatever batches they belong to. */
  lemma Exclusive(states: seq<State>, actions: seq<Action>, k: nat, one: Place, other: Place)
    requires IsRun(states, actions) && states[0] == Start() && k < |states|
    requires Stands(states[k], one, Running) && Stands(states[k], other, Running)
    requires var a, b := ItemAt(states[k], one), ItemAt(states[k], other);
             (NeedsWrite(a) && NeedsWrite(b)) || (ContextOf(a).Some? && ContextOf(a) == ContextOf(b))
    ensures one == other
  {
    assert Fits(Start());
    FitsThroughout(states, actions, k);
    hide IsRun;
    var s := states[k];
    assert one == Place(one.batch, one.index) && other == Place(other.batch, other.index);
    assert HoldsItsLock(s, Place(one.batch, one.index)) && HoldsItsLock(s, Place(other.batch, other.index));
  }

  /** In terms of effects: of all writing, process and destructive items without a context, in all
      batches, at most one runs. */
  lemma WritersAreAlone(states: seq<State>, actions: seq<Action>, k: nat, one: Place, other: Place)
    requires IsRun(states, actions) && states[0] == Start() && k < |states|
    requires Stands(states[k], one, Running) && Stands(states[k], other, Running)
    requires Writes(ItemAt(states[k], one)) && Writes(ItemAt(states[k], other))
    ensures one == other
  {
    hide IsRun;
    Exclusive(states, actions, k, one, other);
  }

  /** Changes something, and is not bound to a browser context. */
  predicate Writes(item: Item) {
    (item.effect.WorkspaceWrite? || item.effect.Process? || item.effect.Destructive?) && (item.context.None? || item.context == Some(""))
  }

  /** And of the items of one browser context, at most one. */
  lemma ContextsAreExclusive(states: seq<State>, actions: seq<Action>, k: nat, one: Place, other: Place)
    requires IsRun(states, actions) && states[0] == Start() && k < |states|
    requires Stands(states[k], one, Running) && Stands(states[k], other, Running)
    requires var a, b := ItemAt(states[k], one), ItemAt(states[k], other); a.context == b.context && a.context.Some? && a.context.value != ""
    ensures one == other
  {
    hide IsRun;
    Exclusive(states, actions, k, one, other);
  }

  /** An item starts at most once; when its batch is finished it started exactly once, and the value it
      returned stands in its own slot. */
  lemma EachOnce(states: seq<State>, actions: seq<Action>, k: nat, batch: nat, i: nat)
    requires IsRun(states, actions) && states[0] == Start() && k < |states| && batch in states[k].batches
    requires i < |states[k].batches[batch].items|
    ensures var b := states[k].batches[batch];
            && i < |b.starts| && i < |b.status| && i < |b.results| && b.starts[i] <= 1
            && (b.main.Finished? ==> b.starts[i] == 1 && b.status[i].Done? && b.results[i] == Some(b.status[i].value))
            && (b.results[i].Some? ==> b.status[i] == Done(b.results[i].value))
  {
    assert Fits(Start());
    FitsThroughout(states, actions, k);
    hide IsRun, ParallelSafe;
    var b := states[k].batches[batch];
    assert BatchFits(b);
    assert ItemFits(b.status[i], b.starts[i], b.results[i]);
  }

  /** A value that was returned is never replaced. */
  lemma {:induction false} ResultsStay(states: seq<State>, actions: seq<Action>, j: nat, k: nat, batch: nat, i: nat)
    requires IsRun(states, actions) && Fits(states[0]) && j <= k < |states|
    requires batch in states[j].batches && i < |states[j].batches[batch].results| && states[j].batches[batch].results[i].Some?
    ensures batch in states[k].batches && i < |states[k].batches[batch].results|
    ensures states[k].batches[batch].results[i] == states[j].batches[batch].results[i]
  {
    hide Fits;
    if k > j {
      ResultsStay(states, actions, j, k - 1, batch, i);
      FitsThroughout(states, actions, k - 1);
      assert states[k - 1 + 1] == Step(states[k - 1], actions[k - 1]);
      ResultStays(states[k - 1], actions[k - 1], batch, i);
    }
  }

  lemma ResultStays(s: State, a: Action, batch: nat, i: nat)
    requires Fits(s) && Enabled(s, a) && batch in s.batches && i < |s.batches[batch].results| && s.batches[batch].results[i].Some?
    ensures var t := Step(s, a); batch in t.batches && i < |t.batches[batch].results| && t.batches[batch].results[i] == s.batches[batch].results[i]
  {
    hide ParallelSafe, Occupying, MainFits, LocksFit;
    var b := s.batches[batch];
    assert BatchFits(b);
    assert ItemFits(b.status[i], b.starts[i], b.results[i]);
  }

  lemma RunningMayLeave(s: State, at: Place)
    requires Fits(s) && Stands(s, at, Running)
    ensures Enabled(s, Leave(at, 0))
  {
    assert BatchFits(s.batches[at.batch]);
  }

  /** While nothing runs, every lock is free. */
  lemma SlottedMayEnter(s: State, at: Place)
    requires Fits(s) && Stands(s, at, Slotted) && forall other :: !Stands(s, other, Running)
    ensures Enabled(s, Enter(at))
  {
    assert BatchFits(s.batches[at.batch]);
  }

  lemma WaitingMayStart(b: Batch)
    requires BatchFits(b) && forall i :: 0 <= i < |b.status| ==> !Occupies(b.status[i])
    ensures b.permits > 0
  {
    assert Occupying(b.status) == {};
  }

  lemma QuietMayProceed(b: Batch)
    requires BatchFits(b) && !b.main.Finished?
    requires forall i :: 0 <= i < |b.status| ==> b.status[i].Idle? || b.status[i].Done?
    ensures MayProceed(b)
  {
    hide ParallelSafe, Occupying;
  }

  /** No deadlock: while a batch is unfinished, some item can move or some loop can go on. */
  lemma SomethingCanMove(states: seq<State>, actions: seq<Action>, k: nat, batch: nat)
    requires IsRun(states, actions) && states[0] == Start() && k < |states|
    requires batch in states[k].batches && !states[k].batches[batch].main.Finished?
    ensures exists a: Action :: !a.Submit? && Enabled(states[k], a)
  {
    assert Fits(Start());
    FitsThroughout(states, actions, k);
    hide IsRun, ParallelSafe;
    MovesFrom(states[k], batch);
  }

  lemma MovesFrom(s: State, batch: nat)
    requires Fits(s) && batch in s.batches && !s.batches[batch].main.Finished?
    ensures exists a: Action :: !a.Submit? && Enabled(s, a)
  {
    hide LocksFit, MainFits, Enabled;
    var b := s.batches[batch];
    assert BatchFits(b);
    if at :| Stands(s, at, Running) {
      RunningMayLeave(s, at);
      assert !Leave(at, 0).Submit?;
    } else {
      assert forall i: nat :: i < |b.status| ==> (Stands(s, Place(batch, i), Running) <==> b.status[i].Running?);
      if i: nat :| i < |b.status| && b.status[i].Slotted? {
        SlottedMayEnter(s, Place(batch, i));
        assert !Enter(Place(batch, i)).Submit?;
      } else {
        NothingOccupies(s, batch);
      }
    }
  }

  lemma NothingOccupies(s: State, batch: nat)
    requires Fits(s) && batch in s.batches && !s.batches[batch].main.Finished?
    requires forall i :: 0 <= i < |s.batches[batch].status| ==> !Occupies(s.batches[batch].status[i])
    ensures exists a: Action :: !a.Submit? && Enabled(s, a)
  {
    hide LocksFit, MainFits;
    var b := s.batches[batch];
    assert BatchFits(b);
    if i: nat :| i < |b.status| && b.status[i].Waiting? {
      WaitingMayStart(b);
      assert Enabled(s, TakeSlot(Place(batch, i)));
    } else {
      QuietMayProceed(b);
      assert Enabled(s, Proceed(batch));
    }
  }

  // ---------------------------------------------------------------- batches end

  function Rank(s: Status): nat {
    match s
    case Idle => 4
    case Waiting => 3
    case Slotted => 2
    case Running => 1
    case Done(_) => 0
  }

  function Ranks(status: seq<Status>): nat {
    if status == [] then 0 else Ranks(status[..|status| - 1]) + Rank(status[|status| - 1])
  }

  function MainRank(m: Main): nat {
    match m
    case Filling => 3
    case Draining => 2
    case Alone => 1
    case Finished => 0
  }

  /** What a batch still has to do, at the most. */
  function Work(b: Batch): int {
    Ranks(b.status) + 4 * (|b.items| - b.index) + MainRank(b.main)
  }

  lemma {:induction false} RanksDrop(before: seq<Status>, after: seq<Status>)
    requires |before| == |after| && forall i :: 0 <= i < |before| ==> Rank(after[i]) <= Rank(before[i])
    ensures Ranks(after) <= Ranks(before)
    ensures (exists i :: 0 <= i < |before| && Rank(after[i]) < Rank(before[i])) ==> Ranks(after) < Ranks(before)
  {
    hide Rank;
    if before != [] {
      var n := |before| - 1;
      RanksDrop(before[..n], after[..n]);
      if i :| 0 <= i < |before| && Rank(after[i]) < Rank(before[i]) {
        if i < n { assert Rank(after[..n][i]) < Rank(before[..n][i]); }
      }
    }
  }

  /** Every turn of the loop gets a batch nearer to its end, as long as it may take one. */
  lemma ProceedWorks(b: Batch)
    requires BatchFits(b) && MayProceed(b)
    ensures Work(Proceeded(b)) < Work(b)
  {
    hide ParallelSafe, Occupying, Ranks, ItemsFit;
    RanksDrop(b.status, Proceeded(b).status);
  }

  lemma MoveWorks(b: Batch, i: nat, after: Status)
    requires i < |b.status| && Rank(after) < Rank(b.status[i])
    ensures Ranks(b.status[i := after]) < Ranks(b.status)
  {
    RanksDrop(b.status, b.status[i := after]);
    assert Rank(b.status[i := after][i]) < Rank(b.status[i]);
  }

  predicate Concerns(a: Action, batch: nat) {
    match a
    case Submit(_, _, _) => false
    case Proceed(id) => id == batch
    case TakeSlot(at) => at.batch == batch
    case Enter(at) => at.batch == batch
    case Leave(at, _) => at.batch == batch
  }

  /** A batch that an action does not concern stays as it is. */
  lemma OthersStay(s: State, a: Action, batch: nat)
    requires Enabled(s, a) && batch in s.batches && !Concerns(a, batch)
    ensures batch in Step(s, a).batches && Step(s, a).batches[batch] == s.batches[batch]
  {
    hide Proceeded, TakeSlotStep, EnterStep, LeaveStep, NewBatch, ContextOf, NeedsWrite;
  }

  lemma ItemWorks(s: State, a: Action, at: Place)
    requires Enabled(s, a) && (a == TakeSlot(at) || a == Enter(at) || (a.Leave? && a.at == at))
    ensures at.batch in Step(s, a).batches && Work(Step(s, a).batches[at.batch]) < Work(s.batches[at.batch])
  {
    hide Ranks, ContextOf, NeedsWrite;
    var b := s.batches[at.batch];
    MoveWorks(b, at.index, if a.TakeSlot? then Slotted else if a.Enter? then Running else Done(a.value));
  }

  lemma StepWorks(s: State, a: Action, batch: nat)
    requires Fits(s) && Enabled(s, a) && batch in s.batches
    ensures batch in Step(s, a).batches
    ensures Work(Step(s, a).batches[batch]) <= Work(s.batches[batch]) - if Concerns(a, batch) then 1 else 0
  {
    assert BatchFits(s.batches[batch]);
    hide BatchFits, LocksFit, Work, Proceeded, TakeSlotStep, EnterStep, LeaveStep, Lock, Unlock;
    if !Concerns(a, batch) {
      OthersStay(s, a, batch);
    } else if a.Proceed? {
      ProceedWorks(s.batches[batch]);
    } else {
      ItemWorks(s, a, a.at);
    }
  }

  function Moves(actions: seq<Action>, batch: nat, j: nat, k: nat): nat
    requires j <= k <= |actions|
    decreases k - j
  {
    if j == k then 0 else Moves(actions, batch, j, k - 1) + if Concerns(actions[k - 1], batch) then 1 else 0
  }

  lemma {:induction false} MovesAreBounded(states: seq<State>, actions: seq<Action>, j: nat, k: nat, batch: nat)
    requires IsRun(states, actions) && Fits(states[0]) && j <= k < |states| && batch in states[j].batches
    ensures batch in states[k].batches && Moves(actions, batch, j, k) + Work(states[k].batches[batch]) <= Work(states[j].batches[batch])
  {
    hide Fits, Enabled, Step, Work, Concerns;
    if k > j {
      MovesAreBounded(states, actions, j, k - 1, batch);
      FitsThroughout(states, actions, k - 1);
      StepWorks(states[k - 1], actions[k - 1], batch);
      assert states[k - 1 + 1] == Step(states[k - 1], actions[k - 1]);
    }
  }

  lemma {:induction false} RanksAtFirst(n: nat)
    ensures Ranks(seq(n, i => Idle)) == 4 * n
  {
    if n > 0 {
      RanksAtFirst(n - 1);
      assert seq(n, i => Idle)[..n - 1] == seq(n - 1, i => Idle);
    }
  }

  /** A batch of n items is over after at most 8n + 3 moves of its items and of its loop, whatever
      other batches do; as something can always move, it ends. */
  lemma BatchEnds(states: seq<State>, actions: seq<Action>, j: nat, k: nat, batch: nat)
    requires IsRun(states, actions) && states[0] == Start() && j < k < |states|
    requires actions[j].Submit? && actions[j].batch == batch
    ensures Moves(actions, batch, j + 1, k) <= 8 * |actions[j].items| + 3
    ensures Moves(actions, batch, j + 1, k) == 8 * |actions[j].items| + 3 ==>
              batch in states[k].batches && states[k].batches[batch].main.Finished?
  {
    hide Enabled, Fits, BatchFits, Ranks;
    assert Fits(Start()) by { StartFits(); }
    assert states[j + 1] == Step(states[j], actions[j]);
    RanksAtFirst(|actions[j].items|);
    MovesAreBounded(states, actions, j + 1, k, batch);
    FitsThroughout(states, actions, k);
    WorkIsLeft(states[k], batch);
  }

  lemma StartFits()
    ensures Fits(Start())
  {
  }

  lemma WorkIsLeft(s: State, batch: nat)
    requires Fits(s) && batch in s.batches
    ensures Work(s.batches[batch]) >= 0 && (Work(s.batches[batch]) == 0 ==> s.batches[batch].main.Finished?)
  {
    hide LocksFit, ParallelSafe, Occupying, ItemsFit;
    assert BatchFits(s.batches[batch]);
  }
}
