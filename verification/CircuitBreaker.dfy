/** The circuit breaker: a sliding window of outcomes, an open period after a trip, and a single
    probe once that period is over. */
module CircuitBreaker {

  datatype Config = Config(window: real, failureRate: real, minSamples: nat, openFor: real)

  datatype Outcome = Outcome(at: real, ok: bool)

  /** `openUntil` is zero while the breaker is closed. */
  datatype Breaker = Breaker(outcomes: seq<Outcome>, openUntil: real, probe: bool)

  datatype Mode = Closed | Open | HalfOpen

  function Fresh(): Breaker {
    Breaker([], 0.0, false)
  }

  function ModeAt(b: Breaker, now: real): Mode {
    if now < b.openUntil then Open else if b.openUntil > 0.0 then HalfOpen else Closed
  }

  predicate Stale(config: Config, now: real, o: Outcome) {
    now - o.at > config.window
  }

  /** Drop stale outcomes from the front, up to the first that is not stale. */
  function Pruned(config: Config, now: real, outcomes: seq<Outcome>): (r: seq<Outcome>)
    ensures |r| <= |outcomes|
  {
    if outcomes != [] && Stale(config, now, outcomes[0]) then Pruned(config, now, outcomes[1..]) else outcomes
  }

  function Failures(outcomes: seq<Outcome>): (n: nat)
    ensures n <= |outcomes|
  {
    if outcomes == [] then 0
    else Failures(outcomes[..|outcomes| - 1]) + if outcomes[|outcomes| - 1].ok then 0 else 1
  }

  /** The rule of the breaker, on whatever outcomes count. */
  predicate TooManyFailures(config: Config, outcomes: seq<Outcome>) {
    |outcomes| >= config.minSamples && |outcomes| > 0
    && Failures(outcomes) as real / |outcomes| as real >= config.failureRate
  }

  /** The failed outcomes, by position. */
  function FailedAt(outcomes: seq<Outcome>): set<nat> {
    set i: nat | i < |outcomes| && !outcomes[i].ok
  }

  lemma {:induction false} FailuresAreCounted(outcomes: seq<Outcome>)
    ensures Failures(outcomes) == |FailedAt(outcomes)|
  {
    if outcomes != [] {
      var n := |outcomes| - 1;
      FailuresAreCounted(outcomes[..n]);
      assert FailedAt(outcomes) == FailedAt(outcomes[..n]) + if outcomes[n].ok then {} else {n};
    }
  }

  /** The rule of the breaker, exactly: enough samples, of which at least the given share failed. */
  lemma TripsExactlyWhen(config: Config, outcomes: seq<Outcome>)
    ensures TooManyFailures(config, outcomes)
       <==> |outcomes| >= config.minSamples && outcomes != []
            && |FailedAt(outcomes)| as real >= config.failureRate * |outcomes| as real
  {
    FailuresAreCounted(outcomes);
    hide Failures, FailedAt;
    if outcomes != [] { ShareMeans(Failures(outcomes) as real, |outcomes| as real, config.failureRate); }
  }

  lemma ShareMeans(part: real, whole: real, share: real)
    requires whole > 0.0
    ensures part / whole >= share <==> part >= share * whole
  {
    Times(part / whole, share, whole);
    assert part / whole * whole == part;
  }

  lemma Times(a: real, b: real, c: real)
    requires c > 0.0
    ensures a >= b <==> a * c >= b * c
  {
  }

  /** The outcome of a probe, exactly: success closes the breaker with an empty window, failure opens it
      for another whole period, and either frees the slot. */
  lemma ProbeDecides(config: Config, b: Breaker, now: real, ok: bool, later: real)
    requires 0.0 < b.openUntil <= now <= later && config.openFor > 0.0
    ensures var after := Recorded(config, b, now, ok);
            && !after.probe && (ok ==> ModeAt(after, later).Closed? && after.outcomes == [])
            && (!ok ==> (ModeAt(after, later).Open? <==> later < now + config.openFor)
                        && (ModeAt(after, later).HalfOpen? <==> later >= now + config.openFor))
  {
  }

  /** Outcomes of a probe decide; every other outcome goes into the window. */
  function Recorded(config: Config, b: Breaker, now: real, ok: bool): Breaker {
    if ModeAt(b, now).HalfOpen? then
      if ok then Fresh() else b.(openUntil := now + config.openFor, probe := false)
    else
      var counted := Pruned(config, now, Pruned(config, now, b.outcomes) + [Outcome(now, ok)]);
      if TooManyFailures(config, counted) then Breaker(counted, now + config.openFor, false) else b.(outcomes := counted)
  }

  /** What the recording of an outcome reports. */
  function Reported(config: Config, b: Breaker, now: real, ok: bool): Mode {
    if ModeAt(b, now).HalfOpen? then (if ok then Closed else Open)
    else if TooManyFailures(config, Pruned(config, now, Pruned(config, now, b.outcomes) + [Outcome(now, ok)])) then Open
    else Closed
  }

  predicate MayProbe(b: Breaker, now: real) {
    ModeAt(b, now).HalfOpen? ==> !b.probe
  }

  function Probed(b: Breaker, now: real): Breaker {
    if ModeAt(b, now).HalfOpen? then b.(probe := true) else b
  }

  function Aborted(b: Breaker, now: real): Breaker {
    if ModeAt(b, now).HalfOpen? then b.(probe := false) else b
  }

  class LiveBreaker {
    const config: Config
    var outcomes: seq<Outcome>
    var openUntil: real
    var probe: bool

    constructor (config: Config)
      ensures this.config == config && View() == Fresh()
    {
      this.config := config;
      outcomes, openUntil, probe := [], 0.0, false;
    }

    function View(): Breaker
      reads this
    {
      Breaker(outcomes, openUntil, probe)
    }

    function State(now: real): Mode
      reads this
    {
      ModeAt(View(), now)
    }

    method TryProbe(now: real) returns (granted: bool)
      modifies this`probe
      ensures granted == MayProbe(old(View()), now)
      ensures View() == if granted then Probed(old(View()), now) else old(View())
    {
      if State(now) != HalfOpen { return true; }
      if probe { return false; }
      probe := true;
      granted := true;
    }

    method AbortProbe(now: real)
      modifies this`probe
      ensures View() == Aborted(old(View()), now)
    {
      if State(now) == HalfOpen { probe := false; }
    }

    method Prune(now: real)
      modifies this`outcomes
      ensures outcomes == Pruned(config, now, old(outcomes))
    {
      while outcomes != [] && now - outcomes[0].at > config.window
        invariant Pruned(config, now, outcomes) == Pruned(config, now, old(outcomes))
        decreases |outcomes|
      {
        outcomes := outcomes[1..];
      }
    }

    method CountFailures() returns (n: nat)
      ensures n == Failures(outcomes)
    {
      n := 0;
      for i := 0 to |outcomes|
        invariant n == Failures(outcomes[..i])
      {
        assert outcomes[..i + 1][..i] == outcomes[..i];
        if !outcomes[i].ok { n := n + 1; }
      }
      assert outcomes[..|outcomes|] == outcomes;
    }

    /** At least one sample is wanted before the breaker may trip. */
    method Record(now: real, ok: bool) returns (report: Mode)
      requires config.minSamples >= 1
      modifies this
      ensures View() == Recorded(config, old(View()), now, ok) && report == Reported(config, old(View()), now, ok)
    {
      if openUntil > 0.0 {
        if now >= openUntil {
          probe := false;
          if ok {
            openUntil, outcomes := 0.0, [];
            return Closed;
          }
          openUntil := now + config.openFor;
          return Open;
        }
      }
      Prune(now);
      outcomes := outcomes + [Outcome(now, ok)];
      Prune(now);
      if |outcomes| < config.minSamples { return Closed; }
      var failures := CountFailures();
      if failures as real / |outcomes| as real >= config.failureRate {
        openUntil := now + config.openFor;
        probe := false;
        return Open;
      }
      report := Closed;
    }
  }

  // ---------------------------------------------------------------- the window is the full history, cut

  /** All outcomes that are recent enough, wherever they stand. */
  function Recent(config: Config, now: real, history: seq<Outcome>): seq<Outcome> {
    if history == [] then []
    else
      var before, last := Recent(config, now, history[..|history| - 1]), history[|history| - 1];
      if Stale(config, now, last) then before else before + [last]
  }

  /** An outcome counts exactly while it is no older than the window. */
  lemma {:induction false} RecentMeans(config: Config, now: real, history: seq<Outcome>, o: Outcome)
    ensures o in Recent(config, now, history) <==> o in history && o.at >= now - config.window
  {
    if history != [] { RecentMeans(config, now, history[..|history| - 1], o); }
  }

  predicate InOrder(history: seq<Outcome>) {
    forall i, j :: 0 <= i < j < |history| ==> history[i].at <= history[j].at
  }

  lemma {:induction false} AllRecent(config: Config, now: real, history: seq<Outcome>)
    requires forall k :: 0 <= k < |history| ==> !Stale(config, now, history[k])
    ensures Recent(config, now, history) == history
  {
    if history != [] { AllRecent(config, now, history[..|history| - 1]); }
  }

  lemma {:induction false} RecentWithoutFirst(config: Config, now: real, history: seq<Outcome>)
    requires history != [] && Stale(config, now, history[0])
    ensures Recent(config, now, history) == Recent(config, now, history[1..])
  {
    if |history| > 1 {
      var n := |history| - 1;
      RecentWithoutFirst(config, now, history[..n]);
      assert history[1..][..n - 1] == history[..n][1..];
    }
  }

  /** Popping from the front of an ordered history leaves exactly what is recent. */
  lemma {:induction false} PrunedIsRecent(config: Config, now: real, history: seq<Outcome>)
    requires InOrder(history)
    ensures Pruned(config, now, history) == Recent(config, now, history)
    decreases |history|
  {
    if history != [] {
      if Stale(config, now, history[0]) {
        RecentWithoutFirst(config, now, history);
        PrunedIsRecent(config, now, history[1..]);
      } else {
        AllRecent(config, now, history);
      }
    }
  }

  /** What was popped earlier would be popped now. */
  lemma {:induction false} PrunedTwice(config: Config, earlier: real, now: real, history: seq<Outcome>)
    requires earlier <= now
    ensures Pruned(config, now, Pruned(config, earlier, history)) == Pruned(config, now, history)
    decreases |history|
  {
    if history != [] && Stale(config, earlier, history[0]) {
      PrunedTwice(config, earlier, now, history[1..]);
    }
  }

  lemma {:induction false} PrunedAppend(config: Config, now: real, history: seq<Outcome>, o: Outcome)
    ensures Pruned(config, now, Pruned(config, now, history) + [o]) == Pruned(config, now, history + [o])
    decreases |history|
  {
    if history != [] {
      assert (history + [o])[1..] == history[1..] + [o];
      if Stale(config, now, history[0]) { PrunedAppend(config, now, history[1..], o); }
    }
  }

  // ---------------------------------------------------------------- the simple form

  /** A breaker that forgets nothing until a probe succeeds. */
  datatype Simple = Simple(history: seq<Outcome>, openUntil: real, probe: bool)

  function SimpleMode(s: Simple, now: real): Mode {
    ModeAt(Breaker([], s.openUntil, s.probe), now)
  }

  function SimplyRecorded(config: Config, s: Simple, now: real, ok: bool): Simple {
    if SimpleMode(s, now).HalfOpen? then
      if ok then Simple([], 0.0, false) else s.(openUntil := now + config.openFor, probe := false)
    else
      var all := s.history + [Outcome(now, ok)];
      if TooManyFailures(config, Recent(config, now, all)) then Simple(all, now + config.openFor, false) else s.(history := all)
  }

  function SimplyReported(config: Config, s: Simple, now: real, ok: bool): Mode {
    if SimpleMode(s, now).HalfOpen? then (if ok then Closed else Open)
    else if TooManyFailures(config, Recent(config, now, s.history + [Outcome(now, ok)])) then Open
    else Closed
  }

  /** The window holds the recent part of the full history, as of the last time it was pruned. */
  predicate Tracks(config: Config, b: Breaker, s: Simple, asOf: real) {
    && b.openUntil == s.openUntil && b.probe == s.probe
    && InOrder(s.history) && (forall k :: 0 <= k < |s.history| ==> s.history[k].at <= asOf)
    && b.outcomes == Pruned(config, asOf, s.history)
  }

  /** The outcome of a probe counts for itself; the window is not looked at. */
  lemma ProbeOutcomeTracks(config: Config, b: Breaker, s: Simple, asOf: real, now: real, ok: bool)
    requires Tracks(config, b, s, asOf) && asOf <= now && ModeAt(b, now).HalfOpen?
    ensures Reported(config, b, now, ok) == SimplyReported(config, s, now, ok)
    ensures Tracks(config, Recorded(config, b, now, ok), SimplyRecorded(config, s, now, ok), asOf)
  {
    hide Failures, Stale, Recent, TooManyFailures;
    assert Pruned(config, asOf, []) == [];
  }

  /** The window after a counted outcome is the recent part of the history with it. */
  lemma CountedWindow(config: Config, b: Breaker, s: Simple, asOf: real, now: real, o: Outcome)
    requires Tracks(config, b, s, asOf) && asOf <= now && o.at == now
    ensures var all := s.history + [o];
            && InOrder(all) && (forall k :: 0 <= k < |all| ==> all[k].at <= now)
            && Pruned(config, now, Pruned(config, now, b.outcomes) + [o]) == Pruned(config, now, all) == Recent(config, now, all)
  {
    hide Stale, Pruned, Recent;
    PrunedTwice(config, asOf, now, s.history);
    PrunedAppend(config, now, s.history, o);
    PrunedIsRecent(config, now, s.history + [o]);
  }

  lemma CountedOutcomeTracks(config: Config, b: Breaker, s: Simple, asOf: real, now: real, ok: bool)
    requires Tracks(config, b, s, asOf) && asOf <= now && !ModeAt(b, now).HalfOpen?
    ensures Reported(config, b, now, ok) == SimplyReported(config, s, now, ok)
    ensures Tracks(config, Recorded(config, b, now, ok), SimplyRecorded(config, s, now, ok), now)
    ensures Recorded(config, b, now, ok).outcomes == Recent(config, now, s.history + [Outcome(now, ok)])
  {
    hide Pruned, Recent, InOrder, TooManyFailures;
    CountedWindow(config, b, s, asOf, now, Outcome(now, ok));
  }

  /** Recording keeps the window equal to the recent part of the full history, so the breaker trips
      exactly when the rule on the full history says so. */
  lemma RecordingTracks(config: Config, b: Breaker, s: Simple, asOf: real, now: real, ok: bool) returns (later: real)
    requires Tracks(config, b, s, asOf) && asOf <= now
    ensures Reported(config, b, now, ok) == SimplyReported(config, s, now, ok)
    ensures asOf <= later <= now
    ensures Tracks(config, Recorded(config, b, now, ok), SimplyRecorded(config, s, now, ok), later)
    ensures !ModeAt(b, now).HalfOpen? ==>
              Recorded(config, b, now, ok).outcomes == Recent(config, now, s.history + [Outcome(now, ok)])
  {
    hide Tracks, Recorded, Reported, SimplyRecorded, SimplyReported, Recent;
    if ModeAt(b, now).HalfOpen? {
      later := asOf;
      ProbeOutcomeTracks(config, b, s, asOf, now, ok);
    } else {
      later := now;
      CountedOutcomeTracks(config, b, s, asOf, now, ok);
    }
  }

  // ---------------------------------------------------------------- over whole runs

  datatype Signal = Record(at: real, ok: bool) | Probe(at: real) | Abort(at: real)

  predicate Chronological(signals: seq<Signal>) {
    (forall k :: 0 <= k < |signals| ==> signals[k].at >= 0.0)
    && forall i, j :: 0 <= i < j < |signals| ==> signals[i].at <= signals[j].at
  }

  function Signalled(config: Config, b: Breaker, signal: Signal): Breaker {
    match signal
    case Record(at, ok) => Recorded(config, b, at, ok)
    case Probe(at) => if MayProbe(b, at) then Probed(b, at) else b
    case Abort(at) => Aborted(b, at)
  }

  function SimplySignalled(config: Config, s: Simple, signal: Signal): Simple {
    match signal
    case Record(at, ok) => SimplyRecorded(config, s, at, ok)
    case Probe(at) => if SimpleMode(s, at).HalfOpen? then s.(probe := true) else s
    case Abort(at) => if SimpleMode(s, at).HalfOpen? then s.(probe := false) else s
  }

  function Play(config: Config, signals: seq<Signal>): Breaker {
    if signals == [] then Fresh()
    else Signalled(config, Play(config, signals[..|signals| - 1]), signals[|signals| - 1])
  }

  function PlaySimple(config: Config, signals: seq<Signal>): Simple {
    if signals == [] then Simple([], 0.0, false)
    else SimplySignalled(config, PlaySimple(config, signals[..|signals| - 1]), signals[|signals| - 1])
  }

  lemma {:induction false} RunTracks(config: Config, signals: seq<Signal>) returns (asOf: real)
    requires Chronological(signals)
    ensures signals == [] ==> asOf == 0.0
    ensures signals != [] ==> asOf <= signals[|signals| - 1].at
    ensures Tracks(config, Play(config, signals), PlaySimple(config, signals), asOf)
  {
    hide Recorded, SimplyRecorded;
    if signals == [] {
      asOf := 0.0;
    } else {
      var before, last := signals[..|signals| - 1], signals[|signals| - 1];
      asOf := RunTracks(config, before);
      if last.Record? {
        asOf := RecordingTracks(config, Play(config, before), PlaySimple(config, before), asOf, last.at, last.ok);
      }
    }
  }

  /** Over every run, the breaker with its pruned window is in the same mode, and reports the same,
      as the one that judges the recent part of its full history. */
  lemma WindowIsHistory(config: Config, signals: seq<Signal>, now: real, ok: bool)
    requires Chronological(signals) && now >= 0.0 && (signals != [] ==> signals[|signals| - 1].at <= now)
    ensures ModeAt(Play(config, signals), now) == SimpleMode(PlaySimple(config, signals), now)
    ensures Reported(config, Play(config, signals), now, ok) == SimplyReported(config, PlaySimple(config, signals), now, ok)
    ensures !ModeAt(Play(config, signals), now).HalfOpen? ==>
              Recorded(config, Play(config, signals), now, ok).outcomes
              == Recent(config, now, PlaySimple(config, signals).history + [Outcome(now, ok)])
  {
    hide Recorded, SimplyRecorded, Reported, SimplyReported, Play, PlaySimple;
    var asOf := RunTracks(config, signals);
    var later := RecordingTracks(config, Play(config, signals), PlaySimple(config, signals), asOf, now, ok);
  }

  /** The only outcome that closes an open breaker: a success of the probe. */
  predicate Closes(b: Breaker, signal: Signal) {
    signal.Record? && signal.ok && ModeAt(b, signal.at).HalfOpen?
  }

  lemma {:induction false} OpenUntilIsBounded(config: Config, signals: seq<Signal>)
    requires Chronological(signals) && config.openFor > 0.0
    ensures var b := Play(config, signals);
            b.openUntil == 0.0 || (signals != [] && 0.0 < b.openUntil <= signals[|signals| - 1].at + config.openFor)
  {
    hide Pruned, TooManyFailures;
    if signals != [] { OpenUntilIsBounded(config, signals[..|signals| - 1]); }
  }

  lemma PlayNext(config: Config, signals: seq<Signal>, j: nat)
    requires 0 < j <= |signals|
    ensures Play(config, signals[..j]) == Signalled(config, Play(config, signals[..j - 1]), signals[j - 1])
  {
    assert signals[..j][..j - 1] == signals[..j - 1];
    hide Signalled;
  }

  lemma SignalGrows(config: Config, b: Breaker, signal: Signal)
    requires b.openUntil <= signal.at + config.openFor && !Closes(b, signal)
    ensures b.openUntil <= Signalled(config, b, signal).openUntil
  {
  }

  /** The end of the open period moves only forward until a probe succeeds. */
  lemma {:induction false} OpenPeriodOnlyGrows(config: Config, signals: seq<Signal>, i: nat, j: nat)
    requires Chronological(signals) && config.openFor > 0.0 && i <= j <= |signals|
    requires forall k :: i <= k < j ==> !Closes(Play(config, signals[..k]), signals[k])
    ensures Play(config, signals[..i]).openUntil <= Play(config, signals[..j]).openUntil
    decreases j
  {
    hide Play, Signalled, Closes;
    if i < j {
      OpenPeriodOnlyGrows(config, signals, i, j - 1);
      OpenUntilIsBounded(config, signals[..j - 1]);
      PlayNext(config, signals, j);
      SignalGrows(config, Play(config, signals[..j - 1]), signals[j - 1]);
    }
  }

  lemma {:induction false} StaysOpen(config: Config, signals: seq<Signal>, i: nat, j: nat)
    requires Chronological(signals) && config.openFor > 0.0 && i < j <= |signals|
    requires Play(config, signals[..i + 1]).openUntil == signals[i].at + config.openFor
    requires signals[j - 1].at < signals[i].at + config.openFor
    ensures Play(config, signals[..j]).openUntil >= signals[i].at + config.openFor
    decreases j
  {
    hide Pruned, TooManyFailures, Play;
    if i + 1 < j {
      StaysOpen(config, signals, i, j - 1);
      PlayNext(config, signals, j);
    }
  }

  /** After the breaker opened at some moment, it stays open for the whole open period: whatever is
      recorded, probed or aborted meanwhile, no request is admitted before its end. */
  lemma NothingAdmittedWhileOpen(config: Config, signals: seq<Signal>, i: nat, j: nat, now: real)
    requires Chronological(signals) && config.openFor > 0.0 && i < j <= |signals|
    requires Play(config, signals[..i + 1]).openUntil == signals[i].at + config.openFor
    requires signals[j - 1].at <= now < signals[i].at + config.openFor
    ensures ModeAt(Play(config, signals[..j]), now) == Open
  {
    StaysOpen(config, signals, i, j);
  }

  /** A report of "closed" is wrong exactly when an outcome arrives late, inside the open period, and
      does not trip the breaker anew. */
  lemma ReportMisleadsExactlyWhen(config: Config, b: Breaker, now: real, ok: bool)
    requires now >= 0.0 && config.openFor > 0.0
    ensures Reported(config, b, now, ok) != ModeAt(Recorded(config, b, now, ok), now)
       <==> ModeAt(b, now).Open? && !TooManyFailures(config, Pruned(config, now, Pruned(config, now, b.outcomes) + [Outcome(now, ok)]))
  {
  }
}
