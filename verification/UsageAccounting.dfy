/** What a run is charged: cumulative token counters and the cost estimated from them. */
module UsageAccounting {
  import opened Common

  datatype Usage = Usage(input: int, output: int, total: int, cached: int)

  /** What a provider said it used; nothing keeps it from saying negative numbers. */
  datatype Report = Report(input: int, output: int, cached: int)

  datatype Pricing = Pricing(input: Option<real>, output: Option<real>, cached: Option<real>)

  /** The occasions on which a run is charged.  `manifest`, `text`, `transcript` and `summary` are the
      engine's own token estimates. */
  datatype Charge =
    | Retry(report: Report, manifest: nat, text: nat)
    | Turn(report: Report, manifest: nat, text: nat)
    | Compaction(report: Report, transcript: nat, summary: nat)
    | Verification(said: Report, total: int)

  function Max(a: int, b: int): int { if a > b then a else b }

  function Min(a: int, b: int): int { if a < b then a else b }

  /** A reported number is replaced by the estimate when it is missing or far above it. */
  function BillableTokens(reported: int, estimate: nat, slack: nat): (n: nat)
    ensures reported > 0 ==> n == reported || n == estimate
    ensures reported > 0 && (estimate == 0 || reported <= 8 * estimate || reported <= estimate + slack) ==> n == reported
    ensures reported <= 0 || (estimate > 0 && reported > 8 * estimate && reported > estimate + slack) ==> n == estimate
    ensures estimate > 0 ==> 0 < n <= Max(8 * estimate, estimate + slack)
  {
    var said := Max(0, reported);
    if estimate > 0 && said > Max(estimate * 8, estimate + slack) then estimate
    else if said > 0 then said
    else estimate
  }

  function BillableInput(reported: int, estimate: nat): nat { BillableTokens(reported, estimate, 4096) }

  function BillableOutput(reported: int, estimate: nat): nat { BillableTokens(reported, estimate, 1024) }

  function Add(u: Usage, input: int, output: int, total: int, cached: int): Usage {
    Usage(u.input + input, u.output + output, u.total + total, u.cached + cached)
  }

  function Bill(u: Usage, report: Report, input: nat, output: nat): Usage {
    var i, o := BillableInput(report.input, input), BillableOutput(report.output, output);
    Add(u, i, o, i + o, Min(report.cached, i))
  }

  /** A turn or a summary without any reported tokens is charged by estimate. */
  function TurnReport(report: Report, manifest: nat, text: nat): Report {
    if report.input + report.output == 0 then Report(manifest, text, 0) else report
  }

  function Apply(u: Usage, c: Charge): Usage {
    match c
    case Retry(report, manifest, text) =>
      var i := if report.input != 0 then report.input else manifest;
      var o := if report.output != 0 then report.output else text;
      Add(u, i, o, i + o, Min(report.cached, i))
    case Turn(report, manifest, text) => Bill(u, TurnReport(report, manifest, text), manifest, text)
    case Compaction(report, transcript, summary) => Bill(u, TurnReport(report, transcript, summary), transcript, summary)
    case Verification(said, total) =>
      Add(u, said.input, said.output, if total != 0 then total else said.input + said.output, Min(said.cached, said.input))
  }

  function ApplyAll(u: Usage, charges: seq<Charge>): Usage {
    if charges == [] then u else Apply(ApplyAll(u, charges[..|charges| - 1]), charges[|charges| - 1])
  }

  function InputCost(u: Usage, rate: real, cachedRate: Option<real>): real {
    var cached := Min(Max(0, u.cached), Max(0, u.input));
    if cached != 0 && cachedRate.Some? then (u.input - cached) as real * rate + cached as real * cachedRate.value
    else u.input as real * rate
  }

  function Cost(u: Usage, pricing: Pricing): Option<real> {
    if pricing.input.None? || pricing.output.None? then None
    else Some((InputCost(u, pricing.input.value, pricing.cached) + u.output as real * pricing.output.value) / 1000000.0)
  }

  // ---------------------------------------------------------------- one charge

  /** A number that is said is believable while it is at most eight times the estimate, or not much
      above it, and always when there is none. */
  predicate Believable(said: int, estimate: nat, slack: nat) {
    said > 0 && (estimate == 0 || said <= 8 * estimate || said <= estimate + slack)
  }

  /** A turn is billed as reported, when its numbers are believable, and by estimate when none were. */
  lemma TurnIsBilled(u: Usage, report: Report, manifest: nat, text: nat)
    ensures Believable(report.input, manifest, 4096) && Believable(report.output, text, 1024) ==>
              Apply(u, Turn(report, manifest, text))
              == Usage(u.input + report.input, u.output + report.output, u.total + report.input + report.output,
                       u.cached + if report.cached <= report.input then report.cached else report.input)
    ensures report.input == 0 && report.output == 0 ==>
              Apply(u, Turn(report, manifest, text)) == Usage(u.input + manifest, u.output + text, u.total + manifest + text, u.cached)
  {
  }

  /** A summary is billed as a turn is, with its own estimates; a retry is billed as reported, each
      missing number by estimate; and a verification as it says, with a missing total summed up. */
  lemma OthersAreBilled(u: Usage, report: Report, input: nat, output: nat, total: int)
    ensures Apply(u, Compaction(report, input, output)) == Apply(u, Turn(report, input, output))
    ensures report.input != 0 && report.output != 0 ==>
              Apply(u, Retry(report, input, output))
              == Usage(u.input + report.input, u.output + report.output, u.total + report.input + report.output,
                       u.cached + if report.cached <= report.input then report.cached else report.input)
    ensures report == Report(0, 0, 0) ==>
              Apply(u, Retry(report, input, output)) == Usage(u.input + input, u.output + output, u.total + input + output, u.cached)
    ensures Apply(u, Verification(report, total))
         == Usage(u.input + report.input, u.output + report.output,
                  u.total + (if total != 0 then total else report.input + report.output),
                  u.cached + if report.cached <= report.input then report.cached else report.input)
  {
  }

  /** No counter goes back. */
  predicate Grows(u: Usage, v: Usage) {
    u.input <= v.input && u.output <= v.output && u.total <= v.total && u.cached <= v.cached
  }

  /** The reported numbers that a charge uses as they are, without clamping, are not negative. */
  predicate Honest(c: Charge) {
    match c
    case Retry(report, _, _) => report.input >= 0 && report.output >= 0 && report.cached >= 0
    case Turn(report, _, _) => report.cached >= 0 || report.input + report.output == 0
    case Compaction(report, _, _) => report.cached >= 0 || report.input + report.output == 0
    case Verification(said, total) =>
      said.input >= 0 && said.output >= 0 && said.cached >= 0 && total >= 0
  }

  /** Whatever a provider reports, cached input stays within input. */
  lemma CachedStaysWithinInput(u: Usage, c: Charge)
    requires u.cached <= u.input
    ensures Apply(u, c).cached <= Apply(u, c).input
  {
  }

  /** The counters only grow exactly when the unclamped reports are not negative. */
  lemma GrowsExactlyWhen(u: Usage, c: Charge)
    ensures Grows(u, Apply(u, c)) <==> Honest(c)
  {
  }

  predicate Sound(u: Usage) {
    0 <= u.cached <= u.input && 0 <= u.output
  }

  predicate Priced(pricing: Pricing) {
    && (pricing.input.Some? ==> pricing.input.value >= 0.0) && (pricing.output.Some? ==> pricing.output.value >= 0.0)
    && (pricing.cached.Some? ==> pricing.cached.value >= 0.0)
  }

  lemma Product(a: real, b: real)
    requires a >= 0.0 && b >= 0.0
    ensures a * b >= 0.0
  {
  }

  /** The weighted sum behind the estimate: uncached input, cached input and output at their rates. */
  function Weighted(u: Usage, input: real, cached: real, output: real): real {
    (u.input - u.cached) as real * input + u.cached as real * cached + u.output as real * output
  }

  lemma WeightedGrows(u: Usage, v: Usage, input: real, cached: real, output: real)
    requires Grows(u, v) && v.cached - u.cached <= v.input - u.input && input >= 0.0 && cached >= 0.0 && output >= 0.0
    ensures Weighted(u, input, cached, output) <= Weighted(v, input, cached, output)
  {
    var uncached, reused, said := v.input - u.input - (v.cached - u.cached), v.cached - u.cached, v.output - u.output;
    Product(uncached as real, input);
    Product(reused as real, cached);
    Product(said as real, output);
    Split((u.input - u.cached) as real, uncached as real, input);
    Split(u.cached as real, reused as real, cached);
    Split(u.output as real, said as real, output);
    assert (v.input - v.cached) as real == (u.input - u.cached) as real + uncached as real;
    assert v.cached as real == u.cached as real + reused as real;
    assert v.output as real == u.output as real + said as real;
  }

  lemma Split(a: real, b: real, rate: real)
    ensures (a + b) * rate == a * rate + b * rate
  {
  }

  lemma CostIsWeighted(u: Usage, pricing: Pricing)
    requires Sound(u) && pricing.input.Some? && pricing.output.Some?
    ensures var cached := if pricing.cached.Some? then pricing.cached.value else pricing.input.value;
            Cost(u, pricing).Some?
            && Cost(u, pricing).value == Weighted(u, pricing.input.value, cached, pricing.output.value) / 1000000.0
  {
  }

  lemma Scale(a: real, b: real)
    requires a <= b
    ensures a / 1000000.0 <= b / 1000000.0
  {
  }

  /** One honest charge never lowers the estimated cost. */
  lemma CostGrows(u: Usage, c: Charge, pricing: Pricing)
    requires Sound(u) && Honest(c) && Priced(pricing) && Cost(u, pricing).Some?
    ensures Sound(Apply(u, c)) && Cost(Apply(u, c), pricing).Some?
    ensures Cost(u, pricing).value <= Cost(Apply(u, c), pricing).value
  {
    var v := Apply(u, c);
    GrowsExactlyWhen(u, c);
    CachedByNoMore(u, c);
    CostIsWeighted(u, pricing);
    CostIsWeighted(v, pricing);
    hide Apply, Honest, Cost, Weighted;
    var cached := if pricing.cached.Some? then pricing.cached.value else pricing.input.value;
    WeightedGrows(u, v, pricing.input.value, cached, pricing.output.value);
    Scale(Weighted(u, pricing.input.value, cached, pricing.output.value), Weighted(v, pricing.input.value, cached, pricing.output.value));
  }

  lemma CachedByNoMore(u: Usage, c: Charge)
    ensures Apply(u, c).cached - u.cached <= Apply(u, c).input - u.input
  {
  }

  // ---------------------------------------------------------------- along a run

  /** Along every run of turns, retries, compactions and verifications, cached input stays within
      input, whatever the provider reports. */
  lemma {:induction false} CachedAlongRun(u: Usage, charges: seq<Charge>)
    requires u.cached <= u.input
    ensures ApplyAll(u, charges).cached <= ApplyAll(u, charges).input
  {
    if charges != [] {
      CachedAlongRun(u, charges[..|charges| - 1]);
      CachedStaysWithinInput(ApplyAll(u, charges[..|charges| - 1]), charges[|charges| - 1]);
    }
  }

  /** Along every run of honest charges, no counter and no cost estimate ever goes back. */
  lemma {:induction false} UsageNeverGoesBack(u: Usage, charges: seq<Charge>, i: nat, j: nat, pricing: Pricing)
    requires Sound(u) && Priced(pricing) && i <= j <= |charges|
    requires forall k :: 0 <= k < |charges| ==> Honest(charges[k])
    ensures var before, after := ApplyAll(u, charges[..i]), ApplyAll(u, charges[..j]);
            && Sound(before) && Sound(after) && Grows(before, after)
            && (Cost(before, pricing).Some? <==> Cost(after, pricing).Some?)
            && (Cost(before, pricing).Some? ==> Cost(before, pricing).value <= Cost(after, pricing).value)
    decreases j
  {
    hide Apply, Honest, Sound, Priced;
    if i < j {
      UsageNeverGoesBack(u, charges, i, j - 1, pricing);
      var middle := ApplyAll(u, charges[..j - 1]);
      assert charges[..j][..j - 1] == charges[..j - 1];
      GrowsExactlyWhen(middle, charges[j - 1]);
      KnownAlike(middle, Apply(middle, charges[j - 1]), pricing);
      SoundNext(middle, charges[j - 1]);
      if Cost(middle, pricing).Some? { CostGrows(middle, charges[j - 1], pricing); }
    } else if j > 0 {
      UsageNeverGoesBack(u, charges, i - 1, j - 1, pricing);
      assert charges[..j][..j - 1] == charges[..j - 1];
      SoundNext(ApplyAll(u, charges[..j - 1]), charges[j - 1]);
    } else {
      assert charges[..0] == [];
    }
  }

  lemma KnownAlike(u: Usage, v: Usage, pricing: Pricing)
    ensures Cost(u, pricing).Some? <==> Cost(v, pricing).Some?
  {
  }

  lemma SoundNext(u: Usage, c: Charge)
    requires Sound(u) && Honest(c)
    ensures Sound(Apply(u, c))
  {
  }
}
