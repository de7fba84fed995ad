/** The token bucket that limits how often a provider is called. */
module TokenBucket {

  datatype Bucket = Bucket(rate: real, tokens: real, last: real)

  /** A wait of zero is a grant; with a rate of zero the wait is a division by zero. */
  datatype Answer = Granted | Wait(seconds: real) | NoRate

  predicate Valid(b: Bucket) {
    0.0 <= b.tokens <= b.rate
  }

  function Refilled(b: Bucket, now: real): Bucket {
    var elapsed := if now > b.last then now - b.last else 0.0;
    var filled := b.tokens + elapsed * b.rate;
    b.(tokens := if filled < b.rate then filled else b.rate, last := now)
  }

  function AnswerTo(b: Bucket, now: real, cost: real): Answer {
    var full := Refilled(b, now);
    if full.tokens >= cost then Granted
    else if full.rate == 0.0 then NoRate
    else Wait((cost - full.tokens) / full.rate)
  }

  function After(b: Bucket, now: real, cost: real): Bucket {
    var full := Refilled(b, now);
    if full.tokens >= cost then full.(tokens := full.tokens - cost) else full
  }

  class LiveBucket {
    var rate: real
    var tokens: real
    var last: real

    constructor (rate: real, now: real)
      ensures View() == Bucket(if rate > 0.0 then rate else 0.0, if rate > 0.0 then rate else 0.0, now)
      ensures Valid(View())
    {
      this.rate := if rate > 0.0 then rate else 0.0;
      this.tokens := if rate > 0.0 then rate else 0.0;
      this.last := now;
    }

    function View(): Bucket
      reads this
    {
      Bucket(rate, tokens, last)
    }

    method Take(now: real, cost: real) returns (answer: Answer)
      modifies this
      ensures answer == AnswerTo(old(View()), now, cost) && View() == After(old(View()), now, cost)
    {
      var elapsed := if now > last then now - last else 0.0;
      tokens := if tokens + elapsed * rate < rate then tokens + elapsed * rate else rate;
      last := now;
      if tokens >= cost {
        tokens := tokens - cost;
        return Granted;
      }
      if rate == 0.0 { return NoRate; }
      answer := Wait((cost - tokens) / rate);
    }
  }

  // ---------------------------------------------------------------- how much is granted

  datatype Take = Take(at: real, cost: real)

  predicate InOrder(takes: seq<Take>) {
    forall i, j :: 0 <= i < j < |takes| ==> takes[i].at <= takes[j].at
  }

  predicate Priced(takes: seq<Take>) {
    forall i :: 0 <= i < |takes| ==> takes[i].cost >= 0.0
  }

  function AfterAll(b: Bucket, takes: seq<Take>): Bucket
    decreases |takes|
  {
    if takes == [] then b else AfterAll(After(b, takes[0].at, takes[0].cost), takes[1..])
  }

  /** The costs that were granted along a sequence of takes. */
  function Spent(b: Bucket, takes: seq<Take>): real
    decreases |takes|
  {
    if takes == [] then 0.0
    else
      (if AnswerTo(b, takes[0].at, takes[0].cost).Granted? then takes[0].cost else 0.0)
      + Spent(After(b, takes[0].at, takes[0].cost), takes[1..])
  }

  lemma ProductIsPositive(a: real, b: real)
    requires a >= 0.0 && b >= 0.0
    ensures a * b >= 0.0
  {
  }

  lemma RefillIsBounded(b: Bucket, now: real)
    requires Valid(b)
    ensures Valid(Refilled(b, now)) && Refilled(b, now).rate == b.rate && Refilled(b, now).last == now
    ensures now >= b.last ==> Refilled(b, now).tokens <= b.tokens + (now - b.last) * b.rate
  {
    if now > b.last { ProductIsPositive(now - b.last, b.rate); }
  }

  /** A bucket left alone fills at its rate until it holds one second's worth. */
  lemma RefillIsExact(b: Bucket, now: real)
    requires Valid(b) && now >= b.last
    ensures var filled := b.tokens + (now - b.last) * b.rate;
            && (filled <= b.rate ==> Refilled(b, now).tokens == filled) && (filled >= b.rate ==> Refilled(b, now).tokens == b.rate)
    ensures now >= b.last + 1.0 ==> Refilled(b, now).tokens == b.rate
  {
    if now >= b.last + 1.0 { ProductIsPositive(now - b.last - 1.0, b.rate); }
  }

  lemma AfterIsValid(b: Bucket, now: real, cost: real)
    requires Valid(b) && cost >= 0.0
    ensures Valid(After(b, now, cost)) && After(b, now, cost).rate == b.rate && After(b, now, cost).last == now
  {
  }

  lemma {:induction false} AfterAllIsValid(b: Bucket, takes: seq<Take>)
    requires Valid(b) && Priced(takes)
    ensures Valid(AfterAll(b, takes)) && AfterAll(b, takes).rate == b.rate
    decreases |takes|
  {
    if takes != [] {
      AfterIsValid(b, takes[0].at, takes[0].cost);
      AfterAllIsValid(After(b, takes[0].at, takes[0].cost), takes[1..]);
    }
  }

  lemma Distribute(a: real, b: real, rate: real)
    ensures a * rate + b * rate == (a + b) * rate
  {
  }

  function Charged(b: Bucket, take: Take): real {
    if AnswerTo(b, take.at, take.cost).Granted? then take.cost else 0.0
  }

  lemma OneTake(b: Bucket, take: Take)
    requires Valid(b) && take.cost >= 0.0
    ensures var next := After(b, take.at, take.cost);
            && Valid(next) && next.rate == b.rate && next.last == take.at
            && next.tokens + Charged(b, take) == Refilled(b, take.at).tokens
  {
  }

  /** What a bucket holds, plus what flows in until the last take, pays for everything granted. */
  lemma {:induction false} SpentIsPaidFor(b: Bucket, takes: seq<Take>)
    requires Valid(b) && InOrder(takes) && Priced(takes) && takes != [] && b.last <= takes[0].at
    ensures Spent(b, takes) <= b.tokens + (takes[|takes| - 1].at - b.last) * b.rate
    decreases |takes|
  {
    hide Refilled, AnswerTo, After;
    var first := takes[0];
    var next := After(b, first.at, first.cost);
    var end := takes[|takes| - 1].at;
    RefillIsBounded(b, first.at);
    OneTake(b, first);
    SpentNext(b, takes);
    if |takes| == 1 {
      NothingSpent(next, takes[1..]);
    } else {
      assert takes[1..][|takes| - 2] == takes[|takes| - 1];
      SpentIsPaidFor(next, takes[1..]);
      Distribute(first.at - b.last, end - first.at, b.rate);
    }
  }

  lemma SpentNext(b: Bucket, takes: seq<Take>)
    requires takes != []
    ensures Spent(b, takes) == Charged(b, takes[0]) + Spent(After(b, takes[0].at, takes[0].cost), takes[1..])
  {
  }

  lemma NothingSpent(b: Bucket, takes: seq<Take>)
    requires takes == []
    ensures Spent(b, takes) == 0.0
  {
  }

  /** Within any stretch of a sequence of takes, the costs granted are at most the rate times one
      plus the length of the stretch. */
  lemma GrantsAreLimited(b: Bucket, takes: seq<Take>, i: nat, j: nat)
    requires Valid(b) && InOrder(takes) && Priced(takes) && i < j <= |takes|
    ensures Spent(AfterAll(b, takes[..i]), takes[i..j]) <= b.rate * (1.0 + takes[j - 1].at - takes[i].at)
  {
    hide Refilled, AnswerTo, After, Spent, AfterAll;
    var before := AfterAll(b, takes[..i]);
    var stretch := takes[i..j];
    AfterAllIsValid(b, takes[..i]);
    RefillIsBounded(before, takes[i].at);
    FullSpendsTheSame(before, stretch);
    SpentIsPaidFor(Refilled(before, takes[i].at), stretch);
    assert stretch[0] == takes[i] && stretch[|stretch| - 1] == takes[j - 1];
    Distribute(1.0, takes[j - 1].at - takes[i].at, b.rate);
  }

  lemma FullSpendsTheSame(b: Bucket, takes: seq<Take>)
    requires Valid(b) && takes != []
    ensures Spent(Refilled(b, takes[0].at), takes) == Spent(b, takes)
  {
  }

  /** Takes of cost one: what is spent is the number of grants. */
  function Grants(b: Bucket, times: seq<real>): nat
    decreases |times|
  {
    if times == [] then 0
    else (if AnswerTo(b, times[0], 1.0).Granted? then 1 else 0) + Grants(After(b, times[0], 1.0), times[1..])
  }

  lemma NoGrants(b: Bucket)
    ensures Grants(b, []) == 0
  {
  }

  function UnitTakes(times: seq<real>): (takes: seq<Take>)
    ensures |takes| == |times| && forall k :: 0 <= k < |takes| ==> takes[k] == Take(times[k], 1.0)
  {
    seq(|times|, i requires 0 <= i < |times| => Take(times[i], 1.0))
  }

  lemma {:induction false} UnitSpent(b: Bucket, times: seq<real>)
    ensures Spent(b, UnitTakes(times)) == Grants(b, times) as real
    decreases |times|
  {
    if times != [] {
      assert UnitTakes(times)[1..] == UnitTakes(times[1..]);
      UnitSpent(After(b, times[0], 1.0), times[1..]);
    }
  }

  lemma NoTakes(b: Bucket)
    ensures AfterAll(b, []) == b
  {
  }

  /** The bucket of a fresh provider grants at most rate times one plus the elapsed time. */
  lemma CallsAreLimited(b: Bucket, times: seq<real>)
    requires Valid(b) && times != [] && forall i, j :: 0 <= i < j < |times| ==> times[i] <= times[j]
    ensures Grants(b, times) as real <= b.rate * (1.0 + times[|times| - 1] - times[0])
  {
    hide Spent, Grants;
    var takes := UnitTakes(times);
    UnitSpent(b, times);
    NoTakes(b);
    GrantsAreLimited(b, takes, 0, |takes|);
    assert takes[..0] == [] && takes[0..|takes|] == takes;
  }

  // ---------------------------------------------------------------- how long to wait

  /** While the cost fits the bucket, the wait is exact: an undisturbed take succeeds after it, and
      not before. */
  lemma WaitIsExact(b: Bucket, now: real, cost: real, d: real)
    requires Valid(b) && b.rate > 0.0 && 0.0 <= cost <= b.rate && d >= 0.0
    requires AnswerTo(b, now, cost).Wait?
    ensures AnswerTo(After(b, now, cost), now + d, cost).Granted? <==> d >= AnswerTo(b, now, cost).seconds
    ensures AnswerTo(b, now, cost).seconds > 0.0
  {
  }

  lemma FullAfterOneSecond(b: Bucket, cost: real)
    requires Valid(b) && cost <= b.rate
    ensures AnswerTo(b, b.last + 1.0, cost).Granted?
  {
  }

  lemma AboveRateIsRefused(b: Bucket, now: real, cost: real)
    requires Valid(b) && cost > b.rate
    ensures !AnswerTo(b, now, cost).Granted?
  {
  }

  /** A cost above the rate is never granted, whatever was taken before and however long anybody
      waits; any other is granted to a bucket left alone for long enough. */
  lemma GrantedEventuallyExactlyWhen(b: Bucket, takes: seq<Take>, cost: real)
    requires Valid(b) && cost >= 0.0 && Priced(takes)
    ensures cost <= b.rate <==> exists now :: AnswerTo(AfterAll(b, takes), now, cost).Granted?
  {
    AfterAllIsValid(b, takes);
    hide AfterAll, AnswerTo;
    var left := AfterAll(b, takes);
    if cost <= b.rate {
      FullAfterOneSecond(left, cost);
    } else {
      forall now ensures !AnswerTo(left, now, cost).Granted? {
        AboveRateIsRefused(left, now, cost);
      }
    }
  }
}
