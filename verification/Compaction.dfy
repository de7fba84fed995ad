/** Folding old history into a rolling summary: which groups are covered, that covering them once
    is enough, and what stays uncovered over whole runs. */
module Compaction {
  import opened Common
  import opened TranscriptGroups
  import opened ContextPlanner

  const MIN_COVER_TOKENS: nat := 512

  datatype Config = Config(enabled: bool, ratio: real, maxContextTokens: int, keepRecent: nat)

  datatype CompactionPlan = CompactionPlan(
    coverIds: seq<string>,
    coverMessages: seq<Message>,
    liveTokensBefore: nat,
    coveredTokens: nat,
    groupsCovered: nat,
    threshold: int)

  /** Conversion to an integer cuts the fraction off. */
  function Truncate(x: real): int {
    if x >= 0.0 then x.Floor else -((-x).Floor)
  }

  function Ids(messages: seq<Message>): (ids: seq<string>)
    ensures |ids| == |messages| && forall k :: 0 <= k < |ids| ==> ids[k] == messages[k].id
  {
    seq(|messages|, i requires 0 <= i < |messages| => messages[i].id)
  }

  function AsSet(ids: seq<string>): set<string> {
    set id | id in ids
  }

  predicate HoldsLatest(g: Group, lastUser: int) {
    lastUser >= 0 && g.start <= lastUser <= g.end
  }

  function Without(groups: seq<Group>, lastUser: int): (r: seq<Group>)
    ensures forall g :: g in r <==> g in groups && !HoldsLatest(g, lastUser)
  {
    if groups == [] then []
    else
      var before, g := Without(groups[..|groups| - 1], lastUser), groups[|groups| - 1];
      if HoldsLatest(g, lastUser) then before else before + [g]
  }

  /** How many of the live groups are old enough to be covered. */
  function OldCount(live: seq<Group>, keepRecent: nat): (n: nat)
    ensures n <= |live| && |live| - n <= keepRecent
  {
    if keepRecent >= |live| then 0 else |live| - keepRecent
  }

  function Candidates(live: seq<Group>, lastUser: int, keepRecent: nat): seq<Group> {
    Without(live[..OldCount(live, keepRecent)], lastUser)
  }

  /** The part of the context that live history may take before it is folded. */
  function Share(config: Config): real {
    config.ratio * (config.maxContextTokens as real)
  }

  function PlanCompaction(messages: seq<Message>, covered: set<string>, config: Config): Option<CompactionPlan> {
    if !config.enabled || messages == [] then None
    else
      var live := Live(Groups(messages, 0), covered);
      var threshold := Truncate(Share(config));
      if live == [] || Cost(live) <= threshold then None
      else
        var candidates := Candidates(live, LastUser(messages), config.keepRecent);
        if candidates == [] || Cost(candidates) < MIN_COVER_TOKENS then None
        else
          var cover := Flatten(candidates);
          Some(CompactionPlan(Ids(cover), cover, Cost(live), Cost(candidates), |candidates|, threshold))
  }

  /** The ids of the summary state after a plan was applied to it. */
  function Fold(summarized: seq<string>, coverIds: seq<string>): seq<string> {
    summarized + Unsummarised(AsSet(summarized), coverIds)
  }

  function Unsummarised(existing: set<string>, ids: seq<string>): (r: seq<string>)
    ensures forall id :: id in r <==> id in ids && id !in existing
  {
    if ids == [] then []
    else
      var before, id := Unsummarised(existing, ids[..|ids| - 1]), ids[|ids| - 1];
      if id in existing then before else before + [id]
  }

  // ---------------------------------------------------------------- applying a plan once is enough

  lemma {:induction false} LiveConcat(a: seq<Group>, b: seq<Group>, covered: set<string>)
    ensures Live(a + b, covered) == Live(a, covered) + Live(b, covered)
  {
    hide IsLive;
    if b == [] {
      assert a + b == a;
    } else {
      assert (a + b)[..|a + b| - 1] == a + b[..|b| - 1];
      LiveConcat(a, b[..|b| - 1], covered);
    }
  }

  /** With more ids covered, the live groups are found among those that were live before. */
  lemma {:induction false} LiveShrinks(groups: seq<Group>, covered: set<string>, more: set<string>)
    requires covered <= more
    ensures Live(groups, more) == Live(Live(groups, covered), more)
  {
    if groups != [] {
      var before, g := groups[..|groups| - 1], groups[|groups| - 1];
      LiveShrinks(before, covered, more);
      assert IsLive(g, more) ==> IsLive(g, covered);
      hide IsLive;
      assert (Live(before, covered) + [g])[..|Live(before, covered)|] == Live(before, covered);
    }
  }

  lemma {:induction false} LiveIsShorter(groups: seq<Group>, covered: set<string>)
    ensures |Live(groups, covered)| <= |groups|
  {
    if groups != [] { LiveIsShorter(groups[..|groups| - 1], covered); }
  }

  lemma {:induction false} InFlatten(groups: seq<Group>, g: Group, m: Message)
    requires g in groups && m in g.messages
    ensures m in Flatten(groups)
  {
    if g != groups[|groups| - 1] { InFlatten(groups[..|groups| - 1], g, m); }
  }

  lemma CandidatesBecomeCovered(candidates: seq<Group>, g: Group, more: set<string>)
    requires g in candidates && g.valid && AsSet(Ids(Flatten(candidates))) <= more
    ensures Covered(g, more)
  {
    var cover := Flatten(candidates);
    forall m | m in g.messages ensures m.id in more {
      InFlatten(candidates, g, m);
      var k :| 0 <= k < |cover| && cover[k] == m;
      assert Ids(cover)[k] == m.id;
    }
  }

  lemma {:induction false} NoneWithout(groups: seq<Group>, lastUser: int)
    requires forall g :: g in groups ==> HoldsLatest(g, lastUser)
    ensures Without(groups, lastUser) == []
  {
    if groups != [] { NoneWithout(groups[..|groups| - 1], lastUser); }
  }

  /** After the candidates are covered, whatever is old and still live holds the latest user message. */
  lemma NothingLeftToCover(live: seq<Group>, lastUser: int, keepRecent: nat, more: set<string>)
    requires AsSet(Ids(Flatten(Candidates(live, lastUser, keepRecent)))) <= more
    requires forall g :: g in live ==> g.valid
    ensures Candidates(Live(live, more), lastUser, keepRecent) == []
  {
    var n := OldCount(live, keepRecent);
    var aged, recent := live[..n], live[n..];
    assert live == aged + recent;
    LiveConcat(aged, recent, more);
    LiveIsShorter(recent, more);
    var left := Live(live, more);
    var m := OldCount(left, keepRecent);
    forall g | g in left[..m] ensures HoldsLatest(g, lastUser) {
      assert left[..m] == Live(aged, more)[..m];
      assert g in aged && IsLive(g, more);
      if !HoldsLatest(g, lastUser) {
        CandidatesBecomeCovered(Candidates(live, lastUser, keepRecent), g, more);
      }
    }
    NoneWithout(left[..m], lastUser);
  }

  lemma FoldCovers(summarized: seq<string>, coverIds: seq<string>)
    ensures AsSet(Fold(summarized, coverIds)) == AsSet(summarized) + AsSet(coverIds)
  {
  }

  /** One step reaches the fixpoint: after a plan was applied, the same transcript yields no plan. */
  lemma ReplanningYieldsNothing(messages: seq<Message>, summarized: seq<string>, config: Config)
    requires PlanCompaction(messages, AsSet(summarized), config).Some?
    ensures var plan := PlanCompaction(messages, AsSet(summarized), config).value;
            PlanCompaction(messages, AsSet(Fold(summarized, plan.coverIds)), config).None?
  {
    hide Live, Groups, Cost, Candidates, AsSet, Ids, Flatten, Fold, LastUser;
    var plan := PlanCompaction(messages, AsSet(summarized), config).value;
    var groups := Groups(messages, 0);
    var live := Live(groups, AsSet(summarized));
    var more := AsSet(Fold(summarized, plan.coverIds));
    FoldCovers(summarized, plan.coverIds);
    LiveShrinks(groups, AsSet(summarized), more);
    NothingLeftToCover(live, LastUser(messages), config.keepRecent, more);
  }

  // ---------------------------------------------------------------- when there is a plan

  /** The groups, by position, that are valid and not summarised as a whole. */
  function LiveAt(groups: seq<Group>, covered: set<string>): set<nat> {
    set k: nat | k < |groups| && groups[k].valid && exists m :: m in groups[k].messages && m.id !in covered
  }

  /** The live groups behind a position. */
  function LaterLive(groups: seq<Group>, covered: set<string>, k: nat): set<nat> {
    set j | j in LiveAt(groups, covered) && j > k
  }

  /** The live groups that are not among the newest ones and do not hold the latest user message. */
  function OldAt(groups: seq<Group>, covered: set<string>, lastUser: int, keepRecent: nat): set<nat> {
    set k | k in LiveAt(groups, covered) && |LaterLive(groups, covered, k)| >= keepRecent
            && !(lastUser >= 0 && groups[k].start <= lastUser <= groups[k].end)
  }

  /** The estimate of the chosen groups. */
  function TokensIn(groups: seq<Group>, chosen: set<nat>): nat {
    if groups == [] then 0
    else
      var n := |groups| - 1;
      TokensIn(groups[..n], chosen) + if n in chosen then Tokens(groups[n].messages) else 0
  }

  lemma {:induction false} OnlyThoseIn(groups: seq<Group>, chosen: set<nat>, other: set<nat>)
    requires forall k :: 0 <= k < |groups| ==> (k in chosen <==> k in other)
    ensures TokensIn(groups, chosen) == TokensIn(groups, other)
  {
    if groups != [] { OnlyThoseIn(groups[..|groups| - 1], chosen, other); }
  }

  lemma LiveMeans(g: Group, covered: set<string>)
    ensures IsLive(g, covered) <==> g.valid && exists m :: m in g.messages && m.id !in covered
  {
  }

  lemma LiveBefore(groups: seq<Group>, covered: set<string>)
    requires groups != []
    ensures var n := |groups| - 1;
            LiveAt(groups, covered) == LiveAt(groups[..n], covered) + if IsLive(groups[n], covered) then {n} else {}
  {
    var n := |groups| - 1;
    LiveMeans(groups[n], covered);
    hide IsLive;
    assert forall k :: 0 <= k < n ==> groups[..n][k] == groups[k];
  }

  lemma CostNext(groups: seq<Group>, g: Group)
    ensures Cost(groups + [g]) == Cost(groups) + Tokens(g.messages)
  {
    assert (groups + [g])[..|groups|] == groups;
    TokensConcat(Flatten(groups), g.messages);
  }

  /** The live groups cost what the groups at the live positions do. */
  lemma {:induction false} LiveCost(groups: seq<Group>, covered: set<string>)
    ensures Cost(Live(groups, covered)) == TokensIn(groups, LiveAt(groups, covered))
  {
    hide LiveAt, IsLive, Cost;
    if groups == [] {
      assert Cost([]) == 0 by { NoCost(); }
    } else {
      var n := |groups| - 1;
      LiveCost(groups[..n], covered);
      LiveBefore(groups, covered);
      LiveInRange(groups[..n], covered);
      OnlyThoseIn(groups[..n], LiveAt(groups, covered), LiveAt(groups[..n], covered));
      if IsLive(groups[n], covered) { CostNext(Live(groups[..n], covered), groups[n]); }
    }
  }

  lemma NoCost()
    ensures Cost([]) == 0
  {
  }

  lemma LiveInRange(groups: seq<Group>, covered: set<string>)
    ensures forall k :: k in LiveAt(groups, covered) ==> k < |groups|
  {
  }

  lemma LaterBefore(groups: seq<Group>, covered: set<string>, k: nat)
    requires groups != [] && k < |groups| - 1
    ensures var n := |groups| - 1;
            LaterLive(groups, covered, k) == LaterLive(groups[..n], covered, k) + if IsLive(groups[n], covered) then {n} else {}
    ensures |groups| - 1 !in LaterLive(groups[..|groups| - 1], covered, k)
  {
    LiveBefore(groups, covered);
    LiveInRange(groups[..|groups| - 1], covered);
    hide LiveAt, IsLive;
  }

  lemma NothingLater(groups: seq<Group>, covered: set<string>)
    requires groups != []
    ensures LaterLive(groups, covered, |groups| - 1) == {}
  {
  }

  /** Without the last group: if it is live, one of the newest is gone. */
  lemma OldBefore(groups: seq<Group>, covered: set<string>, lastUser: int, keepRecent: nat, k: nat)
    requires groups != [] && k < |groups| - 1
    ensures var n := |groups| - 1;
            var rest := if IsLive(groups[n], covered) && keepRecent > 0 then keepRecent - 1 else keepRecent;
            k in OldAt(groups, covered, lastUser, keepRecent) <==> k in OldAt(groups[..n], covered, lastUser, rest)
  {
    hide LaterLive, LiveAt, IsLive;
    var n := |groups| - 1;
    LaterBefore(groups, covered, k);
    LiveBefore(groups, covered);
    LiveInRange(groups[..n], covered);
    assert groups[..n][k] == groups[k];
    AddOne(LaterLive(groups[..n], covered, k), n);
  }

  lemma AddOne(s: set<nat>, n: nat)
    requires n !in s
    ensures |s + {n}| == |s| + 1 && s + {} == s
  {
  }

  lemma OldLast(groups: seq<Group>, covered: set<string>, lastUser: int, keepRecent: nat)
    requires groups != []
    ensures var n := |groups| - 1;
            n in OldAt(groups, covered, lastUser, keepRecent) <==>
              IsLive(groups[n], covered) && keepRecent == 0 && !HoldsLatest(groups[n], lastUser)
  {
    hide LaterLive, LiveAt, IsLive;
    NothingLater(groups, covered);
    LiveBefore(groups, covered);
    LiveInRange(groups[..|groups| - 1], covered);
  }

  lemma WithoutNext(groups: seq<Group>, g: Group, lastUser: int)
    ensures Without(groups + [g], lastUser) == if HoldsLatest(g, lastUser) then Without(groups, lastUser) else Without(groups, lastUser) + [g]
  {
    assert (groups + [g])[..|groups|] == groups;
  }

  /** The candidates without the last group. */
  lemma CandidatesBefore(live: seq<Group>, g: Group, lastUser: int, keepRecent: nat)
    ensures keepRecent > 0 ==> Candidates(live + [g], lastUser, keepRecent) == Candidates(live, lastUser, keepRecent - 1)
    ensures keepRecent == 0 && HoldsLatest(g, lastUser) ==> Candidates(live + [g], lastUser, 0) == Candidates(live, lastUser, 0)
    ensures keepRecent == 0 && !HoldsLatest(g, lastUser) ==> Candidates(live + [g], lastUser, 0) == Candidates(live, lastUser, 0) + [g]
  {
    if keepRecent > 0 {
      var n := OldCount(live + [g], keepRecent);
      assert n == OldCount(live, keepRecent - 1) && (live + [g])[..n] == live[..n];
    } else {
      assert (live + [g])[..|live| + 1] == live + [g] && live[..|live|] == live;
      WithoutNext(live, g, lastUser);
    }
  }

  lemma OldInRange(groups: seq<Group>, covered: set<string>, lastUser: int, keepRecent: nat)
    ensures forall k :: k in OldAt(groups, covered, lastUser, keepRecent) ==> k < |groups|
  {
  }

  /** The old positions of a list are those of the list without its last group, and perhaps the last. */
  lemma OldSplit(groups: seq<Group>, covered: set<string>, lastUser: int, keepRecent: nat)
    requires groups != []
    ensures var n := |groups| - 1;
            var live := IsLive(groups[n], covered);
            var rest := if live && keepRecent > 0 then keepRecent - 1 else keepRecent;
            && OldAt(groups, covered, lastUser, keepRecent)
               == OldAt(groups[..n], covered, lastUser, rest)
                  + (if live && keepRecent == 0 && !HoldsLatest(groups[n], lastUser) then {n} else {})
            && n !in OldAt(groups[..n], covered, lastUser, rest)
  {
    hide OldAt, IsLive, HoldsLatest;
    var n := |groups| - 1;
    var live := IsLive(groups[n], covered);
    var rest := if live && keepRecent > 0 then keepRecent - 1 else keepRecent;
    var whole, part := OldAt(groups, covered, lastUser, keepRecent), OldAt(groups[..n], covered, lastUser, rest);
    OldInRange(groups, covered, lastUser, keepRecent);
    OldInRange(groups[..n], covered, lastUser, rest);
    OldLast(groups, covered, lastUser, keepRecent);
    forall k: nat | k < n ensures k in whole <==> k in part {
      OldBefore(groups, covered, lastUser, keepRecent, k);
    }
    SplitAt(whole, part, n);
  }

  lemma SplitAt(whole: set<nat>, part: set<nat>, n: nat)
    requires (forall k :: k in whole ==> k <= n) && (forall k :: k in part ==> k < n)
    requires forall k: nat :: k < n ==> (k in whole <==> k in part)
    ensures whole == part + (if n in whole then {n} else {}) && n !in part
  {
    forall k ensures k in whole <==> k in part + (if n in whole then {n} else {}) {
    }
  }

  /** The candidates cost what the groups at the old positions do, and are as many. */
  lemma {:induction false} CandidatesCost(groups: seq<Group>, covered: set<string>, lastUser: int, keepRecent: nat)
    ensures var candidates := Candidates(Live(groups, covered), lastUser, keepRecent);
            var aged := OldAt(groups, covered, lastUser, keepRecent);
            Cost(candidates) == TokensIn(groups, aged) && |candidates| == |aged|
    decreases |groups|
  {
    hide OldAt, IsLive, Cost, Candidates, HoldsLatest;
    if groups == [] {
      NoCandidates(covered, lastUser, keepRecent);
    } else {
      var n := |groups| - 1;
      var g, live := groups[n], IsLive(groups[n], covered);
      var rest := if live && keepRecent > 0 then keepRecent - 1 else keepRecent;
      var before := Live(groups[..n], covered);
      CandidatesCost(groups[..n], covered, lastUser, rest);
      OldSplit(groups, covered, lastUser, keepRecent);
      OnlyThoseIn(groups[..n], OldAt(groups, covered, lastUser, keepRecent), OldAt(groups[..n], covered, lastUser, rest));
      if live {
        CandidatesBefore(before, g, lastUser, keepRecent);
        if keepRecent == 0 && !HoldsLatest(g, lastUser) { CostNext(Candidates(before, lastUser, 0), g); }
      }
    }
  }

  lemma NoCandidates(covered: set<string>, lastUser: int, keepRecent: nat)
    ensures Live([], covered) == [] && Candidates([], lastUser, keepRecent) == [] && OldAt([], covered, lastUser, keepRecent) == {}
    ensures Cost([]) == 0
  {
  }

  /** Cutting the fraction off makes no difference to a comparison with a positive integer. */
  lemma TruncationIsHarmless(total: nat, x: real)
    requires total > 0
    ensures total > Truncate(x) <==> total as real > x
  {
  }

  lemma {:induction false} SomeAreFewer(groups: seq<Group>, some: set<nat>, all: set<nat>)
    requires some <= all
    ensures TokensIn(groups, some) <= TokensIn(groups, all)
  {
    if groups != [] { SomeAreFewer(groups[..|groups| - 1], some, all); }
  }

  lemma OldAreLive(groups: seq<Group>, covered: set<string>, lastUser: int, keepRecent: nat)
    ensures OldAt(groups, covered, lastUser, keepRecent) <= LiveAt(groups, covered)
  {
  }

  lemma PlanMeans(messages: seq<Message>, covered: set<string>, config: Config)
    ensures var groups := Groups(messages, 0);
            var live := TokensIn(groups, LiveAt(groups, covered));
            var aged := OldAt(groups, covered, LastUser(messages), config.keepRecent);
            var plan := PlanCompaction(messages, covered, config);
            && (plan.Some? <==> config.enabled && live as real > Share(config) && TokensIn(groups, aged) >= 512)
            && (plan.Some? ==>
                  && plan.value.liveTokensBefore == live && plan.value.coveredTokens == TokensIn(groups, aged)
                  && plan.value.groupsCovered == |aged| && plan.value.coverIds == Ids(plan.value.coverMessages)
                  && plan.value.threshold == Truncate(Share(config)))
  {
    hide Live, LiveAt, OldAt, TokensIn, Candidates, Cost, Groups, Flatten, Ids, LastUser, Truncate, Share;
    var groups := Groups(messages, 0);
    var lastUser := LastUser(messages);
    LiveCost(groups, covered);
    CandidatesCost(groups, covered, lastUser, config.keepRecent);
    OldAreLive(groups, covered, lastUser, config.keepRecent);
    SomeAreFewer(groups, OldAt(groups, covered, lastUser, config.keepRecent), LiveAt(groups, covered));
    NoCandidates(covered, lastUser, config.keepRecent);
    NoGroups(covered);
    var live := TokensIn(groups, LiveAt(groups, covered));
    if live > 0 { TruncationIsHarmless(live, Share(config)); }
  }

  /** When history is folded, exactly: compaction is enabled, the live groups are estimated above the
      given share of the maximum, and the old ones that may be covered at 512 or more.  A plan then
      reports these estimates, the number of groups, and the share with its fraction cut off. */
  lemma PlanExistsExactlyWhen(messages: seq<Message>, covered: set<string>, config: Config)
    ensures var groups := Groups(messages, 0);
            var live := TokensIn(groups, LiveAt(groups, covered));
            var aged := OldAt(groups, covered, LastUser(messages), config.keepRecent);
            var share := config.ratio * (config.maxContextTokens as real);
            var plan := PlanCompaction(messages, covered, config);
            && (plan.Some? <==> config.enabled && live as real > share && TokensIn(groups, aged) >= 512)
            && (plan.Some? ==>
                  && plan.value.liveTokensBefore == live && plan.value.coveredTokens == TokensIn(groups, aged)
                  && plan.value.groupsCovered == |aged| && plan.value.coverIds == Ids(plan.value.coverMessages)
                  && CutOff(share, plan.value.threshold))
  {
    hide PlanCompaction, LiveAt, OldAt, TokensIn, Groups, Ids, LastUser, Truncate, CutOff;
    PlanMeans(messages, covered, config);
    var share := config.ratio * (config.maxContextTokens as real);
    assert Share(config) == share;
    TruncateMeans(share);
  }

  /** An integer is a number without its fraction. */
  predicate CutOff(x: real, n: int) {
    if x >= 0.0 then n as real <= x < n as real + 1.0 else n as real - 1.0 < x <= n as real
  }

  lemma TruncateMeans(x: real)
    ensures CutOff(x, Truncate(x))
  {
  }

  lemma NoGroups(covered: set<string>)
    ensures Groups([], 0) == [] && TokensIn([], {}) == 0 && forall chosen: set<nat> :: TokensIn([], chosen) == 0
  {
  }

  // ---------------------------------------------------------------- what is covered

  predicate DistinctIds(messages: seq<Message>) {
    forall i, j :: 0 <= i < j < |messages| ==> messages[i].id != messages[j].id
  }

  /** Groups that hold disjoint stretches of the transcript, in order. */
  predicate Stretches(groups: seq<Group>, messages: seq<Message>) {
    && (forall k :: 0 <= k < |groups| ==> Spans(groups[k], messages, 0))
    && (forall i, j :: 0 <= i < j < |groups| ==> groups[i].end < groups[j].start)
  }

  lemma GroupsStretch(messages: seq<Message>)
    ensures Stretches(Groups(messages, 0), messages)
  {
    hide Groups;
    var groups := Groups(messages, 0);
    GroupsTile(messages, 0);
    forall i, j | 0 <= i < j < |groups| ensures groups[i].end < groups[j].start {
      assert groups[j - 1 + 1].start == groups[j - 1].end + 1;
      if i < j - 1 { TilesAscend(groups, messages, 0, i, j - 1); }
    }
  }

  lemma StretchNext(earlier: seq<Group>, chosen: seq<Group>, g: Group, messages: seq<Message>)
    requires Stretches(earlier + [g], messages) && Stretches(chosen, messages)
    requires forall c :: c in chosen ==> c in earlier
    ensures Stretches(chosen + [g], messages)
  {
    hide Spans;
    var all := earlier + [g];
    assert all[|earlier|] == g;
    forall k | 0 <= k < |chosen| ensures chosen[k].end < g.start {
      assert chosen[k] in chosen;
      var e :| 0 <= e < |earlier| && earlier[e] == chosen[k];
      assert all[e] == chosen[k];
    }
  }

  lemma {:induction false} LiveStretch(groups: seq<Group>, covered: set<string>, messages: seq<Message>)
    requires Stretches(groups, messages)
    ensures Stretches(Live(groups, covered), messages)
  {
    hide Spans, IsLive;
    if groups != [] {
      var before, g := groups[..|groups| - 1], groups[|groups| - 1];
      assert groups == before + [g];
      LiveStretch(before, covered, messages);
      StretchNext(before, Live(before, covered), g, messages);
      hide Stretches;
    }
  }

  lemma {:induction false} WithoutStretch(groups: seq<Group>, lastUser: int, messages: seq<Message>)
    requires Stretches(groups, messages)
    ensures Stretches(Without(groups, lastUser), messages)
  {
    hide Spans, HoldsLatest;
    if groups != [] {
      var before, g := groups[..|groups| - 1], groups[|groups| - 1];
      assert groups == before + [g];
      WithoutStretch(before, lastUser, messages);
      StretchNext(before, Without(before, lastUser), g, messages);
      hide Stretches;
    }
  }

  lemma CandidatesStretch(messages: seq<Message>, covered: set<string>, keepRecent: nat)
    ensures var live := Live(Groups(messages, 0), covered);
            Stretches(live, messages) && Stretches(Candidates(live, LastUser(messages), keepRecent), messages)
  {
    hide Groups, Live, Spans, LastUser, Without;
    GroupsStretch(messages);
    LiveStretch(Groups(messages, 0), covered, messages);
    var live := Live(Groups(messages, 0), covered);
    WithoutStretch(live[..OldCount(live, keepRecent)], LastUser(messages), messages);
  }

  predicate Within(groups: seq<Group>, j: nat) {
    exists k :: 0 <= k < |groups| && groups[k].start <= j <= groups[k].end
  }

  lemma SpanLength(g: Group, messages: seq<Message>)
    requires Spans(g, messages, 0)
    ensures |g.messages| == g.end + 1 - g.start && g.end < |messages|
    ensures forall q :: 0 <= q < |g.messages| ==> g.messages[q] == messages[g.start + q]
  {
  }

  lemma IdOfStretch(groups: seq<Group>, messages: seq<Message>, j: nat)
    requires Stretches(groups, messages) && DistinctIds(messages) && j < |messages|
    requires messages[j].id in Ids(Flatten(groups))
    ensures Within(groups, j)
  {
  }

  /** With distinct ids, the ids of a selection of stretches are those of the messages within them. */
  lemma IdsOfStretches(groups: seq<Group>, messages: seq<Message>, j: nat)
    requires Stretches(groups, messages) && DistinctIds(messages) && j < |messages|
    ensures messages[j].id in Ids(Flatten(groups)) <==> Within(groups, j)
  {
    hide Spans, Flatten, DistinctIds;
    var cover := Flatten(groups);
    if messages[j].id in Ids(cover) { IdOfStretch(groups, messages, j); }
    if Within(groups, j) {
      var k :| 0 <= k < |groups| && groups[k].start <= j <= groups[k].end;
      SpanLength(groups[k], messages);
      assert groups[k].messages[j - groups[k].start] == messages[j];
      InFlatten(groups, groups[k], messages[j]);
      var p :| 0 <= p < |cover| && cover[p] == messages[j];
      assert Ids(cover)[p] == messages[j].id;
    }
  }

  /** What a plan covers: a message exactly when it stands in a valid group that is not summarised
      yet, does not hold the latest user message, and is not among the newest ones kept. */
  lemma CoversExactly(messages: seq<Message>, covered: set<string>, config: Config, j: nat)
    requires DistinctIds(messages) && j < |messages| && PlanCompaction(messages, covered, config).Some?
    ensures var live := Live(Groups(messages, 0), covered);
            messages[j].id in PlanCompaction(messages, covered, config).value.coverIds
            <==> exists k :: 0 <= k < OldCount(live, config.keepRecent) && live[k].start <= j <= live[k].end
                             && !HoldsLatest(live[k], LastUser(messages))
  {
    hide Groups, Live, LastUser, Stretches, Flatten, Ids, OldCount;
    var live := Live(Groups(messages, 0), covered);
    var n := OldCount(live, config.keepRecent);
    var candidates := Candidates(live, LastUser(messages), config.keepRecent);
    CandidatesStretch(messages, covered, config.keepRecent);
    IdsOfStretches(candidates, messages, j);
    if Within(candidates, j) {
      var k :| 0 <= k < |candidates| && candidates[k].start <= j <= candidates[k].end;
      assert candidates[k] in live[..n];
      var i :| 0 <= i < n && live[..n][i] == candidates[k];
      assert live[i] == candidates[k];
    }
    if k :| 0 <= k < n && live[k].start <= j <= live[k].end && !HoldsLatest(live[k], LastUser(messages)) {
      assert live[..n][k] in candidates;
      var i :| 0 <= i < |candidates| && candidates[i] == live[k];
      assert Within(candidates, j);
    }
  }

  /** The latest user message stays verbatim. */
  lemma LatestUserUncovered(messages: seq<Message>, covered: set<string>, config: Config)
    requires DistinctIds(messages) && LastUser(messages) >= 0 && PlanCompaction(messages, covered, config).Some?
    ensures messages[LastUser(messages)].id !in PlanCompaction(messages, covered, config).value.coverIds
  {
    hide Groups, Live, PlanCompaction, OldCount;
    CoversExactly(messages, covered, config, LastUser(messages));
  }

  // ---------------------------------------------------------------- over whole runs

  /** A transcript and the ids its summary stands for. */
  datatype Session = Session(messages: seq<Message>, summarized: seq<string>)

  datatype Action = Append(message: Message) | Compact(config: Config)

  predicate Enabled(s: Session, a: Action) {
    a.Append? ==> a.message.id !in Ids(s.messages)
  }

  function Step(s: Session, a: Action): Session {
    match a
    case Append(m) => s.(messages := s.messages + [m])
    case Compact(config) =>
      var plan := PlanCompaction(s.messages, AsSet(s.summarized), config);
      if plan.None? then s else s.(summarized := Fold(s.summarized, plan.value.coverIds))
  }

  predicate Sound(s: Session) {
    && DistinctIds(s.messages) && NoRepeats(s.summarized)
    && AsSet(s.summarized) <= AsSet(Ids(s.messages))
    && (LastUser(s.messages) >= 0 ==> s.messages[LastUser(s.messages)].id !in s.summarized)
  }

  ghost predicate IsRun(sessions: seq<Session>, actions: seq<Action>) {
    && |sessions| == |actions| + 1
    && forall k {:trigger actions[k]} :: 0 <= k < |actions| ==>
         Enabled(sessions[k], actions[k]) && sessions[k + 1] == Step(sessions[k], actions[k])
  }

  lemma AppendKeepsSound(s: Session, m: Message)
    requires Sound(s) && Enabled(s, Append(m))
    ensures Sound(Step(s, Append(m)))
  {
    var longer := s.messages + [m];
    assert longer[..|s.messages|] == s.messages;
    forall k | 0 <= k < |s.messages| ensures longer[k].id != m.id {
      assert Ids(s.messages)[k] == longer[k].id;
    }
    forall id | id in s.summarized ensures id in Ids(longer) {
      assert id in AsSet(Ids(s.messages));
      var k :| 0 <= k < |s.messages| && Ids(s.messages)[k] == id;
      assert Ids(longer)[k] == id;
    }
    if m.role.User? { assert m.id !in AsSet(Ids(s.messages)); }
  }

  lemma {:induction false} UnsummarisedNoRepeats(existing: set<string>, ids: seq<string>)
    requires NoRepeats(ids)
    ensures NoRepeats(Unsummarised(existing, ids))
  {
    if ids != [] { UnsummarisedNoRepeats(existing, ids[..|ids| - 1]); }
  }

  lemma LaterIdsDiffer(groups: seq<Group>, messages: seq<Message>, n: nat)
    requires Stretches(groups, messages) && DistinctIds(messages) && n < |groups|
    ensures forall id :: id in Ids(Flatten(groups[..n])) ==> id !in Ids(groups[n].messages)
  {
    hide Spans, Flatten, DistinctIds;
    var g := groups[n];
    SpanLength(g, messages);
    assert Stretches(groups[..n], messages);
    forall id | id in Ids(Flatten(groups[..n])) ensures id !in Ids(g.messages) {
      forall j | 0 <= j < |g.messages| && g.messages[j].id == id ensures false {
        assert messages[g.start + j].id == id;
        IdOfStretch(groups[..n], messages, g.start + j);
      }
    }
  }

  lemma IdsConcat(a: seq<Message>, b: seq<Message>)
    ensures Ids(a + b) == Ids(a) + Ids(b)
  {
  }

  lemma NoRepeatsConcat(a: seq<string>, b: seq<string>)
    requires NoRepeats(a) && NoRepeats(b) && forall id :: id in a ==> id !in b
    ensures NoRepeats(a + b)
  {
    forall i, j | 0 <= i < j < |a + b| ensures (a + b)[i] != (a + b)[j] {
      if i < |a| <= j { assert a[i] in a && b[j - |a|] in b; }
    }
  }

  lemma StretchIdsDistinct(g: Group, messages: seq<Message>)
    requires Spans(g, messages, 0) && DistinctIds(messages)
    ensures NoRepeats(Ids(g.messages))
  {
  }

  lemma {:induction false} FlattenDistinct(groups: seq<Group>, messages: seq<Message>)
    requires Stretches(groups, messages) && DistinctIds(messages)
    ensures NoRepeats(Ids(Flatten(groups)))
  {
    hide Spans, DistinctIds, NoRepeats;
    if groups == [] {
      assert Ids(Flatten(groups)) == [];
      NoneRepeats();
    } else {
      var n := |groups| - 1;
      FlattenDistinct(groups[..n], messages);
      LaterIdsDiffer(groups, messages, n);
      StretchIdsDistinct(groups[n], messages);
      IdsConcat(Flatten(groups[..n]), groups[n].messages);
      NoRepeatsConcat(Ids(Flatten(groups[..n])), Ids(groups[n].messages));
    }
  }

  lemma NoneRepeats()
    ensures NoRepeats<string>([])
  {
  }

  lemma CoverIdsKnown(messages: seq<Message>, covered: set<string>, config: Config)
    requires DistinctIds(messages) && PlanCompaction(messages, covered, config).Some?
    ensures var ids := PlanCompaction(messages, covered, config).value.coverIds;
            NoRepeats(ids) && AsSet(ids) <= AsSet(Ids(messages))
  {
    hide Groups, Live, LastUser, Stretches;
    var live := Live(Groups(messages, 0), covered);
    var candidates := Candidates(live, LastUser(messages), config.keepRecent);
    CandidatesStretch(messages, covered, config.keepRecent);
    FlattenDistinct(candidates, messages);
    FlattenWithin(candidates, messages);
  }

  lemma FlattenWithin(groups: seq<Group>, messages: seq<Message>)
    requires Stretches(groups, messages)
    ensures AsSet(Ids(Flatten(groups))) <= AsSet(Ids(messages))
  {
  }

  lemma FoldNoRepeats(summarized: seq<string>, ids: seq<string>)
    requires NoRepeats(summarized) && NoRepeats(ids)
    ensures NoRepeats(Fold(summarized, ids))
  {
    UnsummarisedNoRepeats(AsSet(summarized), ids);
    NoRepeatsConcat(summarized, Unsummarised(AsSet(summarized), ids));
  }

  lemma CompactKeepsSound(s: Session, config: Config)
    requires Sound(s)
    ensures Sound(Step(s, Compact(config)))
  {
    hide PlanCompaction, LastUser, DistinctIds, NoRepeats, Ids;
    var planned := PlanCompaction(s.messages, AsSet(s.summarized), config);
    if planned.Some? {
      var ids := planned.value.coverIds;
      CoverIdsKnown(s.messages, AsSet(s.summarized), config);
      FoldCovers(s.summarized, ids);
      FoldNoRepeats(s.summarized, ids);
      if LastUser(s.messages) >= 0 {
        LatestUserUncovered(s.messages, AsSet(s.summarized), config);
        var latest := s.messages[LastUser(s.messages)].id;
        assert latest !in AsSet(Fold(s.summarized, ids));
      }
    }
  }

  /** Over every run of appended messages and compactions, the summarised ids only grow, never
      repeat, name messages of the transcript, and never the latest user message. */
  lemma {:induction false} SummaryOnlyGrows(sessions: seq<Session>, actions: seq<Action>, from: nat, k: nat)
    requires IsRun(sessions, actions) && from <= k < |sessions| && Sound(sessions[from])
    ensures Sound(sessions[k]) && sessions[from].summarized <= sessions[k].summarized
  {
    hide Sound, Enabled;
    if k > from {
      SummaryOnlyGrows(sessions, actions, from, k - 1);
      var s, a := sessions[k - 1], actions[k - 1];
      assert sessions[k - 1 + 1] == Step(s, a);
      match a
      case Append(m) => AppendKeepsSound(s, m);
      case Compact(config) => CompactKeepsSound(s, config);
    }
  }
}
