/** The gateway in front of a provider: concurrency permits, a token bucket and a circuit breaker,
    shared by calls that queue, sleep, stream and are cancelled in any order.

    One action is the code between two points at which a call may be suspended. */
module ProviderGateway {
  import opened Common
  import opened CircuitBreaker
  import TB = TokenBucket

  datatype Limits = Limits(maxConcurrency: nat, bucketWait: real, breaker: Config)

  /** Waiting for a permit; holding one while waiting for the bucket; holding one while streaming. */
  datatype Phase = Queueing | Sleeping | Streaming

  /** The epoch counts how often the end of the open period was moved; it is never read by the gateway. */
  datatype Call = Call(phase: Phase, probeHeld: bool, epoch: nat)

  datatype State = State(
    limits: Limits, breaker: Breaker, bucket: TB.Bucket, permits: int, calls: map<nat, Call>, epoch: nat, now: real)

  /** How a stream ended: with a success, with an error, or cancelled without an outcome. */
  datatype Ending = Succeeded | Errored | Abandoned

  datatype Action =
    | Arrive(id: nat, at: real)
    | TakePermit(id: nat, at: real)
    | Wake(id: nat, at: real)
    | CancelWaiting(id: nat, at: real)
    | EndStream(id: nat, at: real, ending: Ending)

  function Start(limits: Limits, qps: real, now: real): State {
    var rate := if qps > 0.0 then qps else 0.0;
    State(limits, Fresh(), TB.Bucket(rate, rate, now), limits.maxConcurrency, map[], 0, now)
  }

  predicate InPhase(s: State, id: nat, phase: Phase) {
    id in s.calls && s.calls[id].phase == phase
  }

  predicate Waiting(s: State, id: nat) {
    InPhase(s, id, Queueing) || InPhase(s, id, Sleeping)
  }

  predicate Enabled(s: State, a: Action) {
    s.now <= a.at
    && match a
       case Arrive(id, _) => id !in s.calls
       case TakePermit(id, _) => InPhase(s, id, Queueing) && s.permits > 0
       case Wake(id, _) => InPhase(s, id, Sleeping)
       case CancelWaiting(id, _) => Waiting(s, id)
       case EndStream(id, _, _) => InPhase(s, id, Streaming)
  }

  /** An arriving call is admitted unless the breaker is open, or half-open with its probe taken. */
  predicate Admits(s: State, at: real) {
    !ModeAt(s.breaker, at).Open? && MayProbe(s.breaker, at)
  }

  function ArriveStep(s: State, id: nat, at: real): State {
    if Admits(s, at) then
      s.(breaker := Probed(s.breaker, at),
         calls := s.calls[id := Call(Queueing, ModeAt(s.breaker, at).HalfOpen?, s.epoch)])
    else s
  }

  /** A call leaves before its stream started: it gives back its permit, if it holds one, and the probe, if it holds it. */
  function Leave(s: State, id: nat, at: real): State
    requires id in s.calls
  {
    var c := s.calls[id];
    s.(permits := if c.phase.Queueing? then s.permits else s.permits + 1,
       breaker := if c.probeHeld then Aborted(s.breaker, at) else s.breaker,
       calls := s.calls - {id})
  }

  function MoveTo(s: State, id: nat, phase: Phase): State
    requires id in s.calls
  {
    s.(calls := s.calls[id := s.calls[id].(phase := phase)])
  }

  function TakePermitStep(s: State, id: nat, at: real): State
    requires id in s.calls
  {
    var t := MoveTo(s.(permits := s.permits - 1, bucket := TB.After(s.bucket, at, 1.0)), id, Sleeping);
    match TB.AnswerTo(s.bucket, at, 1.0)
    case Granted => MoveTo(t, id, Streaming)
    case Wait(seconds) => if seconds > s.limits.bucketWait then Leave(t, id, at) else t
    case NoRate => Leave(t, id, at)
  }

  function WakeStep(s: State, id: nat, at: real): State
    requires id in s.calls
  {
    var t := s.(bucket := TB.After(s.bucket, at, 1.0));
    if TB.AnswerTo(s.bucket, at, 1.0).Granted? then MoveTo(t, id, Streaming) else Leave(t, id, at)
  }

  function EndStreamStep(s: State, id: nat, at: real, ending: Ending): State
    requires id in s.calls
  {
    var after := if ending.Abandoned? then Aborted(s.breaker, at)
                 else Recorded(s.limits.breaker, s.breaker, at, ending.Succeeded?);
    s.(permits := s.permits + 1, calls := s.calls - {id}, breaker := after,
       epoch := if after.openUntil != s.breaker.openUntil then s.epoch + 1 else s.epoch)
  }

  function Step(s: State, a: Action): State
    requires Enabled(s, a)
  {
    var t := match a
             case Arrive(id, at) => ArriveStep(s, id, at)
             case TakePermit(id, at) => TakePermitStep(s, id, at)
             case Wake(id, at) => WakeStep(s, id, at)
             case CancelWaiting(id, at) => Leave(s, id, at)
             case EndStream(id, at, ending) => EndStreamStep(s, id, at, ending);
    t.(now := a.at)
  }

  ghost predicate IsRun(states: seq<State>, actions: seq<Action>) {
    && |states| == |actions| + 1
    && forall k {:trigger actions[k]} :: 0 <= k < |actions| ==>
         Enabled(states[k], actions[k]) && states[k + 1] == Step(states[k], actions[k])
  }

  // ---------------------------------------------------------------- permits and the probe slot

  function Holding(calls: map<nat, Call>): set<nat> {
    set id | id in calls && !calls[id].phase.Queueing?
  }

  function StreamingCalls(calls: map<nat, Call>): set<nat> {
    set id | id in calls && calls[id].phase.Streaming?
  }

  /** Permits free and permits held add up to the limit. */
  predicate Conserved(s: State) {
    s.permits >= 0 && s.permits + |Holding(s.calls)| == s.limits.maxConcurrency
  }

  predicate IsProbe(calls: map<nat, Call>, epoch: nat, id: nat) {
    id in calls && calls[id].probeHeld && calls[id].epoch == epoch
  }

  /** A taken probe slot belongs to a call admitted in the current half-open epoch and still here. */
  ghost predicate SlotOwned(s: State) {
    s.breaker.probe ==> 0.0 < s.breaker.openUntil <= s.now && exists id :: IsProbe(s.calls, s.epoch, id)
  }

  ghost predicate Sound(s: State) {
    Conserved(s) && SlotOwned(s) && s.limits.breaker.openFor > 0.0
  }

  lemma HoldingMoves(calls: map<nat, Call>, id: nat, phase: Phase)
    requires id in calls && !phase.Queueing?
    ensures Holding(calls[id := calls[id].(phase := phase)]) == Holding(calls) + {id}
  {
  }

  lemma HoldingLeaves(calls: map<nat, Call>, id: nat)
    ensures Holding(calls - {id}) == Holding(calls) - {id}
  {
  }

  lemma MoveKeepsConserved(s: State, id: nat, phase: Phase)
    requires id in s.calls && Conserved(s) && !phase.Queueing? && !s.calls[id].phase.Queueing?
    ensures Conserved(MoveTo(s, id, phase))
  {
    HoldingMoves(s.calls, id, phase);
    assert Holding(s.calls) + {id} == Holding(s.calls);
  }

  lemma LeaveKeepsConserved(s: State, id: nat, at: real)
    requires id in s.calls && Conserved(s)
    ensures Conserved(Leave(s, id, at))
  {
    HoldingLeaves(s.calls, id);
    if s.calls[id].phase.Queueing? { assert Holding(s.calls) - {id} == Holding(s.calls); }
  }

  lemma TakeKeepsConserved(s: State, id: nat, at: real)
    requires InPhase(s, id, Queueing) && s.permits > 0 && Conserved(s)
    ensures Conserved(TakePermitStep(s, id, at))
  {
    var t := MoveTo(s.(permits := s.permits - 1, bucket := TB.After(s.bucket, at, 1.0)), id, Sleeping);
    HoldingMoves(s.calls, id, Sleeping);
    assert Conserved(t) by { assert id !in Holding(s.calls); }
    hide Holding, TB.AnswerTo, TB.After;
    match TB.AnswerTo(s.bucket, at, 1.0)
    case Granted => MoveKeepsConserved(t, id, Streaming);
    case Wait(seconds) => LeaveKeepsConserved(t, id, at);
    case NoRate => LeaveKeepsConserved(t, id, at);
  }

  lemma WakeKeepsConserved(s: State, id: nat, at: real)
    requires InPhase(s, id, Sleeping) && Conserved(s)
    ensures Conserved(WakeStep(s, id, at))
  {
    hide Holding, TB.AnswerTo, TB.After;
    var t := s.(bucket := TB.After(s.bucket, at, 1.0));
    MoveKeepsConserved(t, id, Streaming);
    LeaveKeepsConserved(t, id, at);
  }

  lemma ArriveKeepsConserved(s: State, id: nat, at: real)
    requires id !in s.calls && Conserved(s)
    ensures Conserved(ArriveStep(s, id, at))
  {
    assert Holding(ArriveStep(s, id, at).calls) == Holding(s.calls);
  }

  lemma EndKeepsConserved(s: State, id: nat, at: real, ending: Ending)
    requires InPhase(s, id, Streaming) && Conserved(s)
    ensures Conserved(EndStreamStep(s, id, at, ending))
  {
    HoldingLeaves(s.calls, id);
  }

  lemma StepKeepsConserved(s: State, a: Action)
    requires Conserved(s) && Enabled(s, a)
    ensures Conserved(Step(s, a))
  {
    hide Holding, Recorded, Admits, MayProbe, Probed, Aborted, TB.AnswerTo, TB.After;
    match a
    case Arrive(id, at) => ArriveKeepsConserved(s, id, at);
    case TakePermit(id, at) => TakeKeepsConserved(s, id, at);
    case Wake(id, at) => WakeKeepsConserved(s, id, at);
    case CancelWaiting(id, at) => LeaveKeepsConserved(s, id, at);
    case EndStream(id, at, ending) => EndKeepsConserved(s, id, at, ending);
  }

  // ---------------------------------------------------------------- the probe slot

  /** A call that leaves frees the slot if it may be the one that took it. */
  lemma LeaveKeepsSlot(s: State, id: nat, at: real)
    requires id in s.calls && SlotOwned(s) && s.now <= at
    ensures SlotOwned(Leave(s, id, at).(now := at))
  {
    var t := Leave(s, id, at);
    if t.breaker.probe {
      var owner :| IsProbe(s.calls, s.epoch, owner);
      assert owner != id;
      assert IsProbe(t.calls, t.epoch, owner);
    }
  }

  lemma MoveKeepsSlot(s: State, id: nat, phase: Phase, at: real)
    requires id in s.calls && SlotOwned(s) && s.now <= at
    ensures SlotOwned(MoveTo(s, id, phase).(now := at))
  {
    if s.breaker.probe {
      var owner :| IsProbe(s.calls, s.epoch, owner);
      assert IsProbe(MoveTo(s, id, phase).calls, s.epoch, owner);
    }
  }

  lemma ArriveKeepsSlot(s: State, id: nat, at: real)
    requires id !in s.calls && SlotOwned(s) && s.now <= at
    ensures SlotOwned(ArriveStep(s, id, at).(now := at))
  {
    var t := ArriveStep(s, id, at);
    if t.breaker.probe {
      if s.breaker.probe {
        var owner :| IsProbe(s.calls, s.epoch, owner);
        assert IsProbe(t.calls, t.epoch, owner);
      } else {
        assert IsProbe(t.calls, t.epoch, id);
      }
    }
  }

  /** The end of any stream, with an outcome or without, leaves the slot free. */
  lemma EndFreesSlot(s: State, id: nat, at: real, ending: Ending)
    requires id in s.calls && SlotOwned(s) && s.now <= at
    ensures !EndStreamStep(s, id, at, ending).breaker.probe
  {
  }

  lemma TakeKeepsSlot(s: State, id: nat, at: real)
    requires id in s.calls && SlotOwned(s) && s.now <= at
    ensures SlotOwned(TakePermitStep(s, id, at).(now := at)) && SlotOwned(WakeStep(s, id, at).(now := at))
  {
    hide TB.AnswerTo, TB.After, Aborted;
    var paid := s.(permits := s.permits - 1, bucket := TB.After(s.bucket, at, 1.0));
    var woken := s.(bucket := TB.After(s.bucket, at, 1.0));
    MoveKeepsSlot(paid, id, Sleeping, s.now);
    var t := MoveTo(paid, id, Sleeping);
    assert t.(now := s.now) == t;
    MoveKeepsSlot(paid, id, Sleeping, at);
    MoveKeepsSlot(t, id, Streaming, at);
    LeaveKeepsSlot(t, id, at);
    MoveKeepsSlot(woken, id, Streaming, at);
    LeaveKeepsSlot(woken, id, at);
    hide SlotOwned;
  }

  lemma StepKeepsSound(s: State, a: Action)
    requires Sound(s) && Enabled(s, a)
    ensures Sound(Step(s, a)) && Step(s, a).limits == s.limits
  {
    StepKeepsConserved(s, a);
    hide Conserved, TB.AnswerTo, TB.After, Recorded, Admits, Probed, Aborted;
    match a
    case Arrive(id, at) => ArriveKeepsSlot(s, id, at);
    case TakePermit(id, at) => TakeKeepsSlot(s, id, at);
    case Wake(id, at) => TakeKeepsSlot(s, id, at);
    case CancelWaiting(id, at) => LeaveKeepsSlot(s, id, at);
    case EndStream(id, at, ending) => EndFreesSlot(s, id, at, ending);
  }

  lemma {:induction false} SoundThroughout(states: seq<State>, actions: seq<Action>, k: nat)
    requires IsRun(states, actions) && Sound(states[0]) && k < |states|
    ensures Sound(states[k]) && states[k].limits == states[0].limits
  {
    hide Sound, Step, Enabled;
    if k > 0 {
      SoundThroughout(states, actions, k - 1);
      StepKeepsSound(states[k - 1], actions[k - 1]);
      assert states[k - 1 + 1] == Step(states[k - 1], actions[k - 1]);
    }
  }

  lemma {:induction false} FewerStreams(calls: map<nat, Call>)
    ensures |StreamingCalls(calls)| <= |Holding(calls)|
  {
    SubsetIsSmaller(StreamingCalls(calls), Holding(calls));
  }

  /** Over every run of arrivals, refusals, cancellations and stream ends: permits are conserved, so
      never more calls stream than allowed, and a taken probe slot is never leaked. */
  lemma PermitsAndProbeAreSafe(limits: Limits, qps: real, now: real, states: seq<State>, actions: seq<Action>, k: nat)
    requires limits.breaker.openFor > 0.0 && IsRun(states, actions) && states[0] == Start(limits, qps, now) && k < |states|
    ensures var s := states[k];
            && s.permits + |Holding(s.calls)| == limits.maxConcurrency && s.permits >= 0
            && |StreamingCalls(s.calls)| <= limits.maxConcurrency
            && (s.breaker.probe ==> ModeAt(s.breaker, s.now).HalfOpen? && exists id :: IsProbe(s.calls, s.epoch, id))
  {
    assert Holding(map[]) == {};
    assert Sound(states[0]);
    SoundThroughout(states, actions, k);
    FewerStreams(states[k].calls);
    hide IsRun, Holding, StreamingCalls;
  }

  // ---------------------------------------------------------------- single flight

  /** Not closed, and nobody here but at most one probe of the current epoch. */
  ghost predicate Single(s: State) {
    && s.breaker.openUntil > 0.0
    && (forall id :: id in s.calls ==> IsProbe(s.calls, s.epoch, id))
    && (forall a, b :: a in s.calls && b in s.calls ==> a == b)
    && (s.calls != map[] ==> s.breaker.probe)
  }

  lemma StepKeepsSingle(s: State, a: Action)
    requires Single(s) && Enabled(s, a) && Step(s, a).breaker.openUntil > 0.0
    ensures Single(Step(s, a))
  {
  }

  /** Once the breaker is not closed and nobody is here, at most one call is in flight until the
      breaker closes again. */
  lemma {:induction false} AloneOnceQuiet(states: seq<State>, actions: seq<Action>, j: nat, k: nat)
    requires IsRun(states, actions) && j <= k < |states| && states[j].calls == map[]
    requires forall i :: j <= i <= k ==> states[i].breaker.openUntil > 0.0
    ensures Single(states[k])
  {
    hide Step, Enabled;
    if k > j {
      AloneOnceQuiet(states, actions, j, k - 1);
      assert states[k - 1 + 1] == Step(states[k - 1], actions[k - 1]);
      StepKeepsSingle(states[k - 1], actions[k - 1]);
    }
  }

  // ---------------------------------------------------------------- the open period

  /** What an action tells the breaker, if anything. */
  function SignalOf(s: State, a: Action): Option<Signal>
    requires Enabled(s, a)
  {
    match a
    case Arrive(id, at) => if Admits(s, at) then Some(Probe(at)) else None
    case TakePermit(id, at) => if id in Step(s, a).calls || !s.calls[id].probeHeld then None else Some(Abort(at))
    case Wake(id, at) => if id in Step(s, a).calls || !s.calls[id].probeHeld then None else Some(Abort(at))
    case CancelWaiting(id, at) => if s.calls[id].probeHeld then Some(Abort(at)) else None
    case EndStream(id, at, ending) => Some(if ending.Abandoned? then Abort(at) else Record(at, ending.Succeeded?))
  }

  lemma StepSignals(s: State, a: Action)
    requires Enabled(s, a)
    ensures Step(s, a).breaker
         == if SignalOf(s, a).Some? then Signalled(s.limits.breaker, s.breaker, SignalOf(s, a).value) else s.breaker
    ensures SignalOf(s, a).Some? ==> SignalOf(s, a).value.at == a.at
    ensures Step(s, a).limits == s.limits && Step(s, a).now == a.at
  {
  }

  // ---------------------------------------------------------------- single flight, exactly

  /** At most one probe of the current epoch is in flight, and while it is the slot is taken. */
  ghost predicate OneProbe(s: State) {
    && (forall a, b :: IsProbe(s.calls, s.epoch, a) && IsProbe(s.calls, s.epoch, b) ==> a == b)
    && (forall a :: IsProbe(s.calls, s.epoch, a) ==> s.breaker.probe)
  }

  ghost predicate TwoProbes(s: State) {
    exists a, b :: a != b && IsProbe(s.calls, s.epoch, a) && IsProbe(s.calls, s.epoch, b)
  }

  /** A call goes without an outcome while the breaker is half-open, and gives up the slot, although
      another call is the current probe. */
  ghost predicate FreesAnothersSlot(s: State, a: Action)
    requires Enabled(s, a)
  {
    SignalOf(s, a) == Some(Abort(a.at)) && ModeAt(s.breaker, a.at).HalfOpen?
    && exists other :: other != a.id && IsProbe(s.calls, s.epoch, other)
  }

  lemma ProbesAreSlotted(s: State, a: nat)
    requires Sound(s) && OneProbe(s) && IsProbe(s.calls, s.epoch, a)
    ensures 0.0 < s.breaker.openUntil <= s.now
  {
  }

  lemma ArriveKeepsOneProbe(s: State, id: nat, at: real)
    requires Sound(s) && OneProbe(s) && Enabled(s, Arrive(id, at))
    ensures OneProbe(Step(s, Arrive(id, at)))
  {
    var t := Step(s, Arrive(id, at));
    forall a ensures IsProbe(t.calls, t.epoch, a)
                <==> IsProbe(s.calls, s.epoch, a) || (a == id && Admits(s, at) && ModeAt(s.breaker, at).HalfOpen?) {
    }
    hide Conserved, SlotOwned, IsProbe;
  }

  /** The probes that are left when a call is gone. */
  lemma ProbesLeft(calls: map<nat, Call>, epoch: nat, id: nat)
    ensures forall a :: IsProbe(calls - {id}, epoch, a) <==> a != id && IsProbe(calls, epoch, a)
  {
  }

  lemma AbortFreesExactlyWhen(s: State, t: State, id: nat, at: real)
    requires Sound(s) && OneProbe(s) && t.epoch == s.epoch && t.breaker == Aborted(s.breaker, at)
    requires forall a :: IsProbe(t.calls, t.epoch, a) <==> a != id && IsProbe(s.calls, s.epoch, a)
    ensures OneProbe(t) <==> !(ModeAt(s.breaker, at).HalfOpen? && exists other :: other != id && IsProbe(s.calls, s.epoch, other))
  {
    hide Conserved, SlotOwned, IsProbe;
  }

  /** No call is from an epoch to come. */
  predicate Dated(s: State) {
    forall id :: id in s.calls ==> s.calls[id].epoch <= s.epoch
  }

  lemma StepKeepsDated(s: State, a: Action)
    requires Dated(s) && Enabled(s, a)
    ensures Dated(Step(s, a))
  {
    hide Recorded, Aborted, Admits, Probed, TB.AnswerTo, TB.After;
  }

  /** A stream that ends with an outcome ends the epoch, or leaves the probe and its slot alone. */
  lemma OutcomeKeepsOneProbe(s: State, id: nat, at: real, ending: Ending)
    requires Sound(s) && Dated(s) && OneProbe(s) && Enabled(s, EndStream(id, at, ending)) && !ending.Abandoned?
    ensures OneProbe(Step(s, EndStream(id, at, ending)))
  {
    hide Conserved, SlotOwned, Pruned, TooManyFailures;
    var t := Step(s, EndStream(id, at, ending));
    ProbesLeft(s.calls, s.epoch, id);
    if a :| IsProbe(s.calls, s.epoch, a) {
      ProbesAreSlotted(s, a);
      assert t.epoch == s.epoch + 1;
    }
    if t.epoch == s.epoch {
      MovingOnlyLoses(s, t);
    } else {
      forall a ensures !IsProbe(t.calls, t.epoch, a) {
      }
    }
  }

  lemma MovingOnlyLoses(s: State, t: State)
    requires OneProbe(s) && forall a :: IsProbe(t.calls, t.epoch, a) ==> IsProbe(s.calls, s.epoch, a)
    requires (exists a :: IsProbe(s.calls, s.epoch, a)) ==> t.breaker.probe
    ensures OneProbe(t)
  {
    hide IsProbe;
  }

  /** A call that leaves before its stream. */
  lemma LeavingFreesExactlyWhen(s: State, t: State, id: nat, at: real)
    requires Sound(s) && OneProbe(s) && id in s.calls && s.now <= at
    requires t.epoch == s.epoch && t.calls == s.calls - {id}
    requires t.breaker == if s.calls[id].probeHeld then Aborted(s.breaker, at) else s.breaker
    ensures OneProbe(t) <==> !(s.calls[id].probeHeld && ModeAt(s.breaker, at).HalfOpen?
                               && exists other :: other != id && IsProbe(s.calls, s.epoch, other))
  {
    ProbesLeft(s.calls, s.epoch, id);
    if s.calls[id].probeHeld {
      AbortFreesExactlyWhen(s, t, id, at);
    } else {
      hide IsProbe, Conserved, SlotOwned;
    }
  }

  /** A call that moves on keeps what it is. */
  lemma MovingKeepsOneProbe(s: State, t: State, id: nat)
    requires OneProbe(s) && t.epoch == s.epoch && t.breaker == s.breaker
    requires forall a :: IsProbe(t.calls, t.epoch, a) <==> IsProbe(s.calls, s.epoch, a)
    ensures OneProbe(t)
  {
    hide IsProbe;
  }

  lemma TakingFreesExactlyWhen(s: State, a: Action)
    requires Sound(s) && OneProbe(s) && Enabled(s, a) && (a.TakePermit? || a.Wake?)
    ensures OneProbe(Step(s, a)) <==> !FreesAnothersSlot(s, a)
  {
    hide Sound, TB.AnswerTo, TB.After, Aborted, OneProbe;
    var t := Step(s, a);
    if a.id in t.calls {
      MovingKeepsOneProbe(s, t, a.id);
    } else {
      assert t.calls == s.calls - {a.id};
      LeavingFreesExactlyWhen(s, t, a.id, a.at);
    }
  }

  /** One step, exactly: a single probe stays single unless the step frees a slot that another holds. */
  lemma StepKeepsOneProbeExactlyWhen(s: State, a: Action)
    requires Sound(s) && Dated(s) && OneProbe(s) && Enabled(s, a)
    ensures OneProbe(Step(s, a)) <==> !FreesAnothersSlot(s, a)
  {
    hide Sound, Dated, OneProbe, Recorded, Aborted, TB.AnswerTo, TB.After, TakePermitStep, WakeStep, IsProbe;
    match a
    case Arrive(id, at) => ArriveKeepsOneProbe(s, id, at);
    case TakePermit(id, at) => TakingFreesExactlyWhen(s, a);
    case Wake(id, at) => TakingFreesExactlyWhen(s, a);
    case CancelWaiting(id, at) => LeavingFreesExactlyWhen(s, Step(s, a), id, at);
    case EndStream(id, at, ending) =>
      if ending.Abandoned? {
        ProbesLeft(s.calls, s.epoch, id);
        AbortedEpochStays(s, at);
        AbortFreesExactlyWhen(s, Step(s, a), id, at);
      } else {
        OutcomeKeepsOneProbe(s, id, at, ending);
      }
  }

  lemma AbortedEpochStays(s: State, at: real)
    ensures Aborted(s.breaker, at).openUntil == s.breaker.openUntil
  {
  }

  lemma {:induction false} DatedThroughout(states: seq<State>, actions: seq<Action>, k: nat)
    requires IsRun(states, actions) && Dated(states[0]) && k < |states|
    ensures Dated(states[k])
  {
    hide Step, Enabled, Dated;
    if k > 0 {
      DatedThroughout(states, actions, k - 1);
      StepKeepsDated(states[k - 1], actions[k - 1]);
      assert states[k - 1 + 1] == Step(states[k - 1], actions[k - 1]);
    }
  }

  /** Single flight, exactly: over every run there is at most one probe of the current epoch, with its
      slot taken, in all states up to one if and only if no step up to it freed another call's slot. */
  lemma {:induction false} SingleFlight(limits: Limits, qps: real, now: real, states: seq<State>, actions: seq<Action>, k: nat)
    requires limits.breaker.openFor > 0.0 && IsRun(states, actions) && states[0] == Start(limits, qps, now) && k < |states|
    ensures (forall j :: 0 <= j <= k ==> OneProbe(states[j]))
       <==> (forall j :: 0 <= j < k ==> !FreesAnothersSlot(states[j], actions[j]))
  {
    hide Step, Enabled, FreesAnothersSlot, OneProbe;
    if k == 0 {
      StartHasNoProbe(limits, qps, now);
    } else {
      SingleFlight(limits, qps, now, states, actions, k - 1);
      StartIsSound(limits, qps, now);
      SoundThroughout(states, actions, k - 1);
      DatedThroughout(states, actions, k - 1);
      assert Enabled(states[k - 1], actions[k - 1]) && states[k - 1 + 1] == Step(states[k - 1], actions[k - 1]);
      if OneProbe(states[k - 1]) { StepKeepsOneProbeExactlyWhen(states[k - 1], actions[k - 1]); }
    }
  }

  lemma StartHasNoProbe(limits: Limits, qps: real, now: real)
    ensures OneProbe(Start(limits, qps, now))
  {
  }

  lemma StartIsSound(limits: Limits, qps: real, now: real)
    requires limits.breaker.openFor > 0.0
    ensures Sound(Start(limits, qps, now)) && Dated(Start(limits, qps, now))
  {
    assert Holding(map[]) == {};
  }

  /** Where a slot was freed, the other call is still the current probe and the breaker half-open. */
  lemma FreedSlotIsOpen(s: State, a: Action)
    requires Sound(s) && OneProbe(s) && Enabled(s, a) && FreesAnothersSlot(s, a)
    ensures var t := Step(s, a);
            && !t.breaker.probe && ModeAt(t.breaker, a.at).HalfOpen? && exists other :: IsProbe(t.calls, t.epoch, other)
  {
    hide Sound, OneProbe, TB.AnswerTo, TB.After, Recorded;
    var other :| other != a.id && IsProbe(s.calls, s.epoch, other);
    assert IsProbe(Step(s, a).calls, Step(s, a).epoch, other);
  }

  lemma ArrivalIsSecond(t: State, id: nat, at: real)
    requires t.now <= at && id !in t.calls && !t.breaker.probe && ModeAt(t.breaker, at).HalfOpen?
    requires exists other :: IsProbe(t.calls, t.epoch, other)
    ensures TwoProbes(Step(t, Arrive(id, at)))
  {
    var other :| IsProbe(t.calls, t.epoch, other);
    var u := Step(t, Arrive(id, at));
    assert IsProbe(u.calls, u.epoch, other) && IsProbe(u.calls, u.epoch, id);
  }

  /** And then it matters: after a step, the next call can become a second probe if and only if the
      step freed a slot that another call holds. */
  lemma SecondProbeExactlyWhen(s: State, a: Action, id: nat)
    requires Sound(s) && Dated(s) && OneProbe(s) && Enabled(s, a) && id !in Step(s, a).calls
    ensures TwoProbes(Step(Step(s, a), Arrive(id, a.at))) <==> FreesAnothersSlot(s, a)
  {
    var t := Step(s, a);
    StepKeepsOneProbeExactlyWhen(s, a);
    StepKeepsSound(s, a);
    StepKeepsDated(s, a);
    if FreesAnothersSlot(s, a) {
      FreedSlotIsOpen(s, a);
      ArrivalIsSecond(t, id, a.at);
    } else {
      hide Step, FreesAnothersSlot, Sound, Dated;
      ArriveKeepsOneProbe(t, id, a.at);
    }
  }

  /** The signals of a run, in order: the gateway's breaker is a breaker that gets exactly these. */
  function Signals(states: seq<State>, actions: seq<Action>, k: nat): (signals: seq<Signal>)
    requires |states| == |actions| + 1 && k < |states|
    requires forall i {:trigger actions[i]} :: 0 <= i < |actions| ==> Enabled(states[i], actions[i])
  {
    if k == 0 then []
    else
      var before := Signals(states, actions, k - 1);
      var signal := SignalOf(states[k - 1], actions[k - 1]);
      if signal.Some? then before + [signal.value] else before
  }

  lemma {:induction false} GatewayPlays(limits: Limits, qps: real, now: real, states: seq<State>, actions: seq<Action>, k: nat)
    requires IsRun(states, actions) && states[0] == Start(limits, qps, now) && now >= 0.0 && k < |states|
    ensures var signals := Signals(states, actions, k);
            && states[k].breaker == Play(limits.breaker, signals) && states[k].limits == limits
            && Chronological(signals) && states[k].now >= now
            && (signals != [] ==> signals[|signals| - 1].at <= states[k].now)
  {
    hide Step, Enabled, SignalOf, Signalled;
    if k > 0 {
      GatewayPlays(limits, qps, now, states, actions, k - 1);
      var s, a := states[k - 1], actions[k - 1];
      assert states[k - 1 + 1] == Step(s, a);
      StepSignals(s, a);
      LaterActs(s, a);
      var before := Signals(states, actions, k - 1);
      if SignalOf(s, a).Some? {
        assert (before + [SignalOf(s, a).value])[..|before|] == before;
      }
    }
  }

  lemma LaterActs(s: State, a: Action)
    requires Enabled(s, a)
    ensures s.now <= a.at
  {
  }

  lemma SignalKeepsShut(config: Config, b: Breaker, signal: Signal, end: real)
    requires signal.at < end <= b.openUntil && end <= signal.at + config.openFor
    ensures Signalled(config, b, signal).openUntil >= end
  {
  }

  lemma {:induction false} StaysShut(states: seq<State>, actions: seq<Action>, i: nat, k: nat, end: real)
    requires IsRun(states, actions) && i < k < |states|
    requires states[i + 1].breaker.openUntil == end && end == actions[i].at + states[i].limits.breaker.openFor
    requires states[k].now < end
    ensures states[k].breaker.openUntil >= end && states[k].limits == states[i].limits && actions[i].at <= states[k].now
  {
    hide Step, Enabled, SignalOf, Signalled;
    var s, a := states[k - 1], actions[k - 1];
    assert states[k - 1 + 1] == Step(s, a);
    StepSignals(s, a);
    LaterActs(s, a);
    if i + 1 < k {
      StaysShut(states, actions, i, k - 1, end);
      if SignalOf(s, a).Some? { SignalKeepsShut(s.limits.breaker, s.breaker, SignalOf(s, a).value, end); }
    }
  }

  /** When the end of a stream opens the breaker, no call that arrives within the open period is admitted. */
  lemma NobodyAdmittedWhileOpen(states: seq<State>, actions: seq<Action>, i: nat, k: nat)
    requires IsRun(states, actions) && i < k < |actions| && actions[k].Arrive?
    requires states[i + 1].breaker.openUntil == actions[i].at + states[i].limits.breaker.openFor
    requires actions[k].at < actions[i].at + states[i].limits.breaker.openFor
    ensures states[k + 1].calls == states[k].calls && states[k + 1].breaker == states[k].breaker
  {
    LaterActs(states[k], actions[k]);
    StaysShut(states, actions, i, k, actions[i].at + states[i].limits.breaker.openFor);
    assert !Admits(states[k], actions[k].at);
  }

  // ---------------------------------------------------------------- who is let through

  /** An arriving call is let in exactly when the open period is over and nobody probes; it queues, and
      it holds the probe exactly when the breaker has not closed yet. */
  lemma ArrivingIsExact(s: State, id: nat, at: real)
    requires Enabled(s, Arrive(id, at))
    ensures var t := Step(s, Arrive(id, at));
            && (id in t.calls <==> at >= s.breaker.openUntil && (s.breaker.openUntil > 0.0 ==> !s.breaker.probe))
            && (id in t.calls ==> t.calls == s.calls[id := t.calls[id]] && t.calls[id].phase.Queueing?
                                  && (t.calls[id].probeHeld <==> s.breaker.openUntil > 0.0)
                                  && (t.breaker.probe <==> s.breaker.probe || s.breaker.openUntil > 0.0))
            && (id !in t.calls ==> t.calls == s.calls && t.breaker == s.breaker) && t.permits == s.permits
  {
  }

  /** A call is gone: its permit is back, if it had one, and a probe it held is aborted. */
  predicate Gone(s: State, t: State, id: nat, at: real, hadPermit: bool)
    requires id in s.calls
  {
    && t.calls == s.calls - {id} && t.permits == (if hadPermit then s.permits + 1 else s.permits)
    && t.breaker == if s.calls[id].probeHeld then Aborted(s.breaker, at) else s.breaker
  }

  /** A call that got its permit streams exactly when the bucket grants at once; it sleeps exactly when
      what is missing would be refilled within the longest wait; and otherwise it is gone. */
  lemma TakingIsExact(s: State, id: nat, at: real)
    requires Enabled(s, TakePermit(id, at)) && TB.Valid(s.bucket)
    ensures var t := Step(s, TakePermit(id, at));
            var full := TB.Refilled(s.bucket, at).tokens;
            && (InPhase(t, id, Streaming) <==> full >= 1.0)
            && (InPhase(t, id, Sleeping) <==>
                  full < 1.0 && s.bucket.rate > 0.0 && (1.0 - full) / s.bucket.rate <= s.limits.bucketWait)
            && (id in t.calls ==> t.permits == s.permits - 1 && t.breaker == s.breaker && t.calls == s.calls[id := t.calls[id]]
                                  && (InPhase(t, id, Streaming) || InPhase(t, id, Sleeping)))
            && (id !in t.calls ==> Gone(s, t, id, at, false))
  {
    hide Aborted;
    var full := TB.Refilled(s.bucket, at);
    AnswerMeans(s.bucket, at);
    var moved := s.calls[id := s.calls[id].(phase := Sleeping)];
    assert moved - {id} == s.calls - {id};
    assert moved[id := moved[id].(phase := Streaming)] == s.calls[id := s.calls[id].(phase := Streaming)];
    hide TB.AnswerTo, TB.After, TB.Refilled;
  }

  lemma AnswerMeans(b: TB.Bucket, at: real)
    ensures var full := TB.Refilled(b, at).tokens;
            && (TB.AnswerTo(b, at, 1.0).Granted? <==> full >= 1.0) && (TB.AnswerTo(b, at, 1.0).NoRate? <==> full < 1.0 && b.rate == 0.0)
            && (TB.AnswerTo(b, at, 1.0).Wait? ==> TB.AnswerTo(b, at, 1.0).seconds == (1.0 - full) / b.rate)
  {
  }

  predicate GrantedAfter(b: TB.Bucket, at: real, d: real) {
    TB.AnswerTo(b, at + d, 1.0).Granted?
  }

  /** A wait is within a limit exactly when an undisturbed take would be granted within it. */
  lemma WaitWithin(b: TB.Bucket, at: real, limit: real)
    requires TB.Valid(b) && b.rate >= 1.0 && TB.AnswerTo(b, at, 1.0).Wait?
    ensures TB.AnswerTo(b, at, 1.0).seconds <= limit
       <==> exists d :: 0.0 <= d <= limit && GrantedAfter(TB.After(b, at, 1.0), at, d)
  {
    hide TB.AnswerTo, TB.After, TB.Valid;
    var seconds := TB.AnswerTo(b, at, 1.0).seconds;
    TB.WaitIsExact(b, at, 1.0, 0.0);
    if seconds <= limit {
      TB.WaitIsExact(b, at, 1.0, seconds);
      assert GrantedAfter(TB.After(b, at, 1.0), at, seconds);
    }
    if d :| 0.0 <= d <= limit && GrantedAfter(TB.After(b, at, 1.0), at, d) { TB.WaitIsExact(b, at, 1.0, d); }
  }

  /** At a rate of one or more, a call stays exactly when it is granted at once or an undisturbed take
      would be granted within the longest wait. */
  lemma StaysExactlyWhen(s: State, id: nat, at: real)
    requires Enabled(s, TakePermit(id, at)) && TB.Valid(s.bucket) && s.bucket.rate >= 1.0
    ensures var t := Step(s, TakePermit(id, at));
            id in t.calls <==> TB.AnswerTo(s.bucket, at, 1.0).Granted?
                               || exists d :: 0.0 <= d <= s.limits.bucketWait && GrantedAfter(t.bucket, at, d)
  {
    hide Step, Enabled, TB.AnswerTo, TB.After, TB.Refilled, TB.Valid, Gone, GrantedAfter, StartsStream;
    TakingIsExact(s, id, at);
    AnswerMeans(s.bucket, at);
    StartsExactlyWhen(s, TakePermit(id, at));
    if TB.AnswerTo(s.bucket, at, 1.0).Wait? { WaitWithin(s.bucket, at, s.limits.bucketWait); }
  }

  /** A call that has slept streams exactly when the bucket grants then, and is gone otherwise. */
  lemma WakingIsExact(s: State, id: nat, at: real)
    requires Enabled(s, Wake(id, at))
    ensures var t := Step(s, Wake(id, at));
            && (InPhase(t, id, Streaming) <==> TB.Refilled(s.bucket, at).tokens >= 1.0)
            && (InPhase(t, id, Streaming) ==> t.permits == s.permits && t.breaker == s.breaker && t.calls == s.calls[id := t.calls[id]])
            && (!InPhase(t, id, Streaming) ==> Gone(s, t, id, at, true))
  {
    AnswerMeans(s.bucket, at);
    hide TB.AnswerTo, TB.After, TB.Refilled, Aborted;
  }

  /** Below a rate of one a call may be put to sleep, but whenever it wakes it is refused. */
  lemma SleepsInVain(s: State, id: nat, at: real)
    requires Enabled(s, Wake(id, at)) && TB.Valid(s.bucket) && s.bucket.rate < 1.0
    ensures Gone(s, Step(s, Wake(id, at)), id, at, true)
  {
    TB.RefillIsBounded(s.bucket, at);
    WakingIsExact(s, id, at);
    hide Step, Enabled, TB.Refilled, Gone;
  }

  /** A cancelled call is gone, with its permit back exactly when it had got one. */
  lemma CancellingIsExact(s: State, id: nat, at: real)
    requires Enabled(s, CancelWaiting(id, at))
    ensures Gone(s, Step(s, CancelWaiting(id, at)), id, at, InPhase(s, id, Sleeping))
  {
  }

  /** The end of a stream gives the permit back, and decides a half-open breaker: success closes it,
      an error opens it for another whole period, and an abandoned stream leaves it half-open. */
  lemma EndingIsExact(s: State, id: nat, at: real, ending: Ending)
    requires Enabled(s, EndStream(id, at, ending))
    ensures var t := Step(s, EndStream(id, at, ending));
            && t.calls == s.calls - {id} && t.permits == s.permits + 1
            && (0.0 < s.breaker.openUntil <= at ==>
                  && !t.breaker.probe
                  && t.breaker.openUntil == (match ending
                                             case Succeeded => 0.0
                                             case Errored => at + s.limits.breaker.openFor
                                             case Abandoned => s.breaker.openUntil))
            && (ending.Abandoned? ==> t.breaker.outcomes == s.breaker.outcomes && t.breaker.openUntil == s.breaker.openUntil)
  {
    hide TooManyFailures, Pruned;
  }

  // ---------------------------------------------------------------- how many streams start

  predicate Takes(a: Action) {
    a.TakePermit? || a.Wake?
  }

  /** A stream starts exactly when the bucket grants the take. */
  predicate StartsStream(s: State, a: Action) {
    Takes(a) && TB.AnswerTo(s.bucket, a.at, 1.0).Granted?
  }

  lemma StartsExactlyWhen(s: State, a: Action)
    requires Enabled(s, a)
    ensures StartsStream(s, a) <==> InPhase(Step(s, a), a.id, Streaming) && !InPhase(s, a.id, Streaming)
    ensures Step(s, a).bucket == if Takes(a) then TB.After(s.bucket, a.at, 1.0) else s.bucket
  {
  }

  function TakeTimes(actions: seq<Action>): seq<real> {
    if actions == [] then []
    else if Takes(actions[0]) then [actions[0].at] + TakeTimes(actions[1..])
    else TakeTimes(actions[1..])
  }

  /** How many streams the actions start, from a state that holds this bucket. */
  function StreamsStarted(states: seq<State>, actions: seq<Action>, i: nat, j: nat): nat
    requires |states| == |actions| + 1 && i <= j <= |actions|
    decreases j - i
  {
    if i == j then 0 else (if StartsStream(states[i], actions[i]) then 1 else 0) + StreamsStarted(states, actions, i + 1, j)
  }

  lemma {:induction false} StartsAreGrants(states: seq<State>, actions: seq<Action>, i: nat, j: nat)
    requires IsRun(states, actions) && i <= j <= |actions|
    ensures StreamsStarted(states, actions, i, j) == TB.Grants(states[i].bucket, TakeTimes(actions[i..j]))
    decreases j - i
  {
    hide Step, Enabled, TB.AnswerTo, TB.After;
    if i < j {
      StartsAreGrants(states, actions, i + 1, j);
      StartsExactlyWhen(states[i], actions[i]);
      assert states[i + 1] == Step(states[i], actions[i]);
      assert actions[i..j][1..] == actions[i + 1..j] && actions[i..j][0] == actions[i];
      var rest := TakeTimes(actions[i + 1..j]);
      if Takes(actions[i]) { assert ([actions[i].at] + rest)[1..] == rest; }
    }
  }

  predicate OrderedWithin(times: seq<real>, from: real, until: real) {
    && (forall p, q :: 0 <= p < q < |times| ==> times[p] <= times[q])
    && (forall p :: 0 <= p < |times| ==> from <= times[p] <= until)
  }

  lemma OrderedPrepend(time: real, times: seq<real>, from: real, until: real)
    requires OrderedWithin(times, time, until) && from <= time <= until
    ensures OrderedWithin([time] + times, from, until) && OrderedWithin(times, from, until)
  {
  }

  lemma {:induction false} TimesAreOrdered(states: seq<State>, actions: seq<Action>, i: nat, j: nat)
    requires IsRun(states, actions) && i <= j <= |actions|
    ensures OrderedWithin(TakeTimes(actions[i..j]), states[i].now, states[j].now) && states[i].now <= states[j].now
    decreases j - i
  {
    hide Step, Enabled, OrderedWithin;
    if i == j {
      assert actions[i..j] == [];
      NoTimes(states[i].now);
    } else {
      TimesAreOrdered(states, actions, i + 1, j);
      LaterActs(states[i], actions[i]);
      StepSignals(states[i], actions[i]);
      assert states[i + 1] == Step(states[i], actions[i]);
      assert actions[i..j][1..] == actions[i + 1..j] && actions[i..j][0] == actions[i];
      OrderedPrepend(actions[i].at, TakeTimes(actions[i + 1..j]), states[i].now, states[j].now);
    }
  }

  lemma NoTimes(now: real)
    ensures OrderedWithin([], now, now)
  {
  }

  lemma {:induction false} BucketStaysValid(states: seq<State>, actions: seq<Action>, k: nat)
    requires IsRun(states, actions) && TB.Valid(states[0].bucket) && k < |states|
    ensures TB.Valid(states[k].bucket) && states[k].bucket.rate == states[0].bucket.rate
  {
    hide Step, Enabled, TB.AnswerTo, TB.After;
    if k > 0 {
      BucketStaysValid(states, actions, k - 1);
      StartsExactlyWhen(states[k - 1], actions[k - 1]);
      TB.AfterIsValid(states[k - 1].bucket, actions[k - 1].at, 1.0);
      assert states[k - 1 + 1] == Step(states[k - 1], actions[k - 1]);
    }
  }

  lemma LongerIsMore(rate: real, first: real, last: real, from: real, until: real)
    requires rate >= 0.0 && from <= first <= last <= until
    ensures rate * (1.0 + last - first) <= rate * (1.0 + (until - from))
  {
  }

  lemma GrantsWithin(b: TB.Bucket, times: seq<real>, from: real, until: real)
    requires TB.Valid(b) && b.rate >= 0.0 && from <= until && OrderedWithin(times, from, until)
    ensures TB.Grants(b, times) as real <= b.rate * (1.0 + (until - from))
  {
    hide TB.Grants, TB.Valid;
    if times == [] {
      TB.NoGrants(b);
      TB.ProductIsPositive(b.rate, 1.0 + (until - from));
    } else {
      TB.CallsAreLimited(b, times);
      LongerIsMore(b.rate, times[0], times[|times| - 1], from, until);
    }
  }

  /** Within any stretch of a run, at most rate times one plus its length streams start. */
  lemma StreamsAreLimited(limits: Limits, qps: real, now: real, states: seq<State>, actions: seq<Action>, i: nat, j: nat)
    requires IsRun(states, actions) && states[0] == Start(limits, qps, now) && qps >= 0.0 && i <= j <= |actions|
    ensures StreamsStarted(states, actions, i, j) as real <= qps * (1.0 + (states[j].now - states[i].now))
  {
    hide Step, Enabled, TB.AnswerTo, TB.After, TB.Grants, TakeTimes, StreamsStarted;
    BucketStaysValid(states, actions, i);
    StartsAreGrants(states, actions, i, j);
    TimesAreOrdered(states, actions, i, j);
    GrantsWithin(states[i].bucket, TakeTimes(actions[i..j]), states[i].now, states[j].now);
  }

  // ---------------------------------------------------------------- why an earlier call must be gone

  function SomeLimits(): Limits {
    Limits(4, 0.5, Config(30.0, 0.5, 1, 60.0))
  }

  function TwoStreams(): State {
    State(SomeLimits(), Fresh(), TB.Bucket(10.0, 8.0, 0.0), 2,
          map[0 := Call(Streaming, false, 0), 1 := Call(Streaming, false, 0)], 0, 0.0)
  }

  function OneLeft(): State {
    State(SomeLimits(), Breaker([Outcome(1.0, false)], 61.0, false), TB.Bucket(10.0, 8.0, 0.0), 3,
          map[1 := Call(Streaming, false, 0)], 1, 1.0)
  }

  function ProbeAndEarlier(): State {
    State(SomeLimits(), Breaker([Outcome(1.0, false)], 61.0, true), TB.Bucket(10.0, 8.0, 0.0), 3,
          map[1 := Call(Streaming, false, 0), 2 := Call(Queueing, true, 1)], 1, 61.0)
  }

  function SecondProbe(): State {
    State(SomeLimits(), Breaker([Outcome(1.0, false)], 61.0, true), TB.Bucket(10.0, 8.0, 0.0), 4,
          map[2 := Call(Queueing, true, 1), 3 := Call(Queueing, true, 1)], 1, 61.0)
  }

  lemma FirstStreams()
    ensures var s1 := ArriveStep(Start(SomeLimits(), 10.0, 0.0), 0, 0.0);
            var s2 := TakePermitStep(s1, 0, 0.0);
            var s3 := ArriveStep(s2, 1, 0.0);
            && s1.calls == map[0 := Call(Queueing, false, 0)]
            && s2.calls == map[0 := Call(Streaming, false, 0)] && s2.permits == 3
            && s3.calls == map[0 := Call(Streaming, false, 0), 1 := Call(Queueing, false, 0)]
            && TakePermitStep(s3, 1, 0.0) == TwoStreams()
  {
  }

  lemma OneFailureTrips()
    ensures Recorded(SomeLimits().breaker, Fresh(), 1.0, false) == Breaker([Outcome(1.0, false)], 61.0, false)
  {
    var config, o := SomeLimits().breaker, Outcome(1.0, false);
    assert Pruned(config, 1.0, [] + [o]) == [o];
    assert [o][..0] == [] && Failures([o]) == 1;
  }

  lemma Tripped()
    ensures EndStreamStep(TwoStreams(), 0, 1.0, Errored).(now := 1.0) == OneLeft()
  {
    hide Recorded;
    OneFailureTrips();
    assert TwoStreams().calls - {0} == OneLeft().calls;
  }

  /** A call admitted before the trip that is cancelled during the probe frees a slot it never held,
      and a second probe is let through: two calls of the same half-open epoch are in flight. */
  lemma EarlierCallBreaksSingleFlight() returns (states: seq<State>, actions: seq<Action>)
    ensures IsRun(states, actions) && states[0] == Start(SomeLimits(), 10.0, 0.0)
    ensures var s := states[|states| - 1];
            && IsProbe(s.calls, s.epoch, 2) && IsProbe(s.calls, s.epoch, 3) && ModeAt(s.breaker, s.now).HalfOpen?
  {
    var s0 := Start(SomeLimits(), 10.0, 0.0);
    FirstStreams();
    Tripped();
    var s1 := ArriveStep(s0, 0, 0.0);
    var s2 := TakePermitStep(s1, 0, 0.0);
    var s3 := ArriveStep(s2, 1, 0.0);
    var s4, s5, s6 := TwoStreams(), OneLeft(), ProbeAndEarlier();
    var s7 := EndStreamStep(s6, 1, 61.0, Abandoned);
    assert s7.calls == map[2 := Call(Queueing, true, 1)];
    states := [s0, s1, s2, s3, s4, s5, s6, s7, SecondProbe()];
    actions := [Arrive(0, 0.0), TakePermit(0, 0.0), Arrive(1, 0.0), TakePermit(1, 0.0), EndStream(0, 1.0, Errored),
                Arrive(2, 61.0), EndStream(1, 61.0, Abandoned), Arrive(3, 61.0)];
    forall k | 0 <= k < |actions| ensures Enabled(states[k], actions[k]) && states[k + 1] == Step(states[k], actions[k]) {
      assert k == 0 || k == 1 || k == 2 || k == 3 || k == 4 || k == 5 || k == 6 || k == 7;
    }
  }
}
