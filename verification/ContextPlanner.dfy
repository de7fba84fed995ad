/** Fitting a transcript into a token budget: older groups are dropped whole, and only when the
    rest is still too large are the bodies of large tool results replaced by pointers. */
module ContextPlanner {
  import opened Common
  import opened TranscriptGroups

  const SHRINK_FROM: nat := 160

  /** Artifact ids are 32 hexadecimal digits. */
  type ArtifactId = id: string | |id| == 32 witness seq(32, i => '0')

  /** Where the archive puts a tool result; nothing when it is missing or fails. */
  type Archive = Message -> Option<ArtifactId>

  function PointerHead(): (s: string)
    ensures |s| == 38
  {
    "[tool result externalized as artifact:"
  }

  function Unavailable(): (s: string)
    ensures |s| == 11
  {
    "unavailable"
  }

  function Pointer(id: Option<ArtifactId>): (s: string)
    ensures |s| <= 71
  {
    PointerHead() + (if id.Some? then id.value else Unavailable()) + "]"
  }

  predicate Contains(text: string, part: string) {
    exists i :: 0 <= i <= |text| - |part| && text[i..][..|part|] == part
  }

  /** A pointer names the artifact that holds the body it stands for, and is shorter than any body that
      is replaced. */
  lemma PointerNamesArtifact(id: ArtifactId)
    ensures Contains(Pointer(Some(id)), id) && |Pointer(Some(id))| < SHRINK_FROM
  {
    hide PointerHead;
    var text, at := Pointer(Some(id)), |PointerHead()|;
    assert text[at..] == id + "]";
    assert text[at..][..|id|] == id;
  }

  function ShrinkMessage(m: Message, archive: Archive): Message {
    if m.role.Tool? && |m.content| >= SHRINK_FROM then m.(content := Pointer(archive(m))) else m
  }

  function ShrinkMessages(messages: seq<Message>, archive: Archive): (r: seq<Message>)
    ensures |r| == |messages|
    ensures forall k :: 0 <= k < |r| ==> r[k] == ShrinkMessage(messages[k], archive)
  {
    if messages == [] then [] else ShrinkMessages(messages[..|messages| - 1], archive) + [ShrinkMessage(messages[|messages| - 1], archive)]
  }

  function ShrinkGroup(g: Group, archive: Archive): Group {
    if g.toolPair then g.(messages := ShrinkMessages(g.messages, archive)) else g
  }

  function ShrinkGroups(groups: seq<Group>, archive: Archive): (r: seq<Group>)
    ensures |r| == |groups| && forall k :: 0 <= k < |r| ==> r[k] == ShrinkGroup(groups[k], archive)
  {
    seq(|groups|, i requires 0 <= i < |groups| => ShrinkGroup(groups[i], archive))
  }

  // ---------------------------------------------------------------- which groups are live

  function LastUser(messages: seq<Message>): (r: int)
    ensures -1 <= r < |messages|
    ensures r >= 0 ==> messages[r].role.User?
    ensures forall k :: r < k < |messages| ==> !messages[k].role.User?
  {
    if messages == [] then -1
    else if messages[|messages| - 1].role.User? then |messages| - 1
    else LastUser(messages[..|messages| - 1])
  }

  predicate Covered(g: Group, summarized: set<string>) {
    g.valid && forall m :: m in g.messages ==> m.id in summarized
  }

  predicate IsLive(g: Group, summarized: set<string>) {
    g.valid && !Covered(g, summarized)
  }

  function Live(groups: seq<Group>, summarized: set<string>): (live: seq<Group>)
    ensures forall g :: g in live ==> g in groups && IsLive(g, summarized)
  {
    if groups == [] then []
    else
      var before, g := Live(groups[..|groups| - 1], summarized), groups[|groups| - 1];
      if IsLive(g, summarized) then before + [g] else before
  }

  function Cost(groups: seq<Group>): nat {
    Tokens(Flatten(groups))
  }

  /** How many live groups end before the latest user message; with no user message, none. */
  function Older(live: seq<Group>, lastUser: int): (n: nat)
    ensures n <= |live|
    ensures forall k :: 0 <= k < n ==> live[k].end < lastUser
    ensures n < |live| ==> live[n].end >= lastUser
  {
    if live != [] && live[0].end < lastUser then 1 + Older(live[1..], lastUser) else 0
  }

  predicate Ascending(groups: seq<Group>) {
    forall i, j :: 0 <= i < j < |groups| ==> groups[i].end < groups[j].end
  }

  // ---------------------------------------------------------------- costs

  lemma CostConcat(a: seq<Group>, b: seq<Group>)
    ensures Cost(a + b) == Cost(a) + Cost(b)
  {
    FlattenConcat(a, b);
    TokensConcat(Flatten(a), Flatten(b));
  }

  lemma CostOne(g: Group)
    ensures Cost([g]) == Tokens(g.messages)
  {
    assert [g][..0] == [];
    assert Flatten([g]) == [] + g.messages == g.messages;
  }

  lemma CostFrom(groups: seq<Group>, i: nat)
    requires i < |groups|
    ensures Cost(groups[i..]) == Tokens(groups[i].messages) + Cost(groups[i + 1..])
  {
    assert groups[i..] == [groups[i]] + groups[i + 1..];
    CostConcat([groups[i]], groups[i + 1..]);
    CostOne(groups[i]);
  }

  lemma CostSuffix(groups: seq<Group>, i: nat, j: nat)
    requires i <= j <= |groups|
    ensures Cost(groups[j..]) <= Cost(groups[i..])
  {
    assert groups[i..] == groups[i..j] + groups[j..];
    CostConcat(groups[i..j], groups[j..]);
  }

  /** A pointer is never more expensive than the body it replaces. */
  lemma ShrinkSaves(m: Message, archive: Archive)
    ensures MessageTokens(ShrinkMessage(m, archive)) <= MessageTokens(m)
  {
  }

  lemma {:induction false} ShrinkMessagesSaves(messages: seq<Message>, archive: Archive)
    ensures Tokens(ShrinkMessages(messages, archive)) <= Tokens(messages)
  {
    hide ShrinkMessage, MessageTokens;
    if messages != [] {
      var before, last := messages[..|messages| - 1], messages[|messages| - 1];
      ShrinkMessagesSaves(before, archive);
      ShrinkSaves(last, archive);
      assert ShrinkMessages(messages, archive)[..|messages| - 1] == ShrinkMessages(before, archive);
    }
  }

  lemma {:induction false} ShrinkGroupsSaves(groups: seq<Group>, archive: Archive)
    ensures Cost(ShrinkGroups(groups, archive)) <= Cost(groups)
  {
    hide ShrinkMessages, Cost;
    if groups == [] {
      assert ShrinkGroups(groups, archive) == groups;
    } else {
      var first, rest := groups[0], groups[1..];
      ShrinkMessagesSaves(first.messages, archive);
      ShrinkGroupsSaves(rest, archive);
      assert groups == [first] + rest;
      assert ShrinkGroups(groups, archive) == [ShrinkGroup(first, archive)] + ShrinkGroups(rest, archive);
      CostConcat([first], rest);
      CostConcat([ShrinkGroup(first, archive)], ShrinkGroups(rest, archive));
      CostOne(first);
      CostOne(ShrinkGroup(first, archive));
    }
  }

  // ---------------------------------------------------------------- dropping older groups

  /** The first `k` live groups are left out: all of them older than the latest user message, none
      of them without need, and no further one could be. */
  predicate ShortestDrop(live: seq<Group>, base: nat, budget: nat, lastUser: int, k: nat) {
    && k <= Older(live, lastUser)
    && (forall i :: 0 <= i < k ==> base + Cost(live[i..]) > budget)
    && (k < Older(live, lastUser) ==> base + Cost(live[k..]) <= budget)
  }

  function Included(live: seq<Group>, included: seq<bool>): seq<Group>
    requires |included| == |live|
  {
    if live == [] then []
    else Included(live[..|live| - 1], included[..|live| - 1]) + if included[|live| - 1] then [live[|live| - 1]] else []
  }

  lemma {:induction false} IncludedSuffix(live: seq<Group>, included: seq<bool>, k: nat)
    requires |included| == |live| && k <= |live|
    requires forall i :: 0 <= i < |live| ==> included[i] == (i >= k)
    ensures Included(live, included) == live[k..]
  {
    if live != [] {
      var n := |live| - 1;
      if k <= n {
        IncludedSuffix(live[..n], included[..n], k);
        assert live[k..] == live[..n][k..] + [live[n]];
      } else {
        IncludedSuffix(live[..n], included[..n], n);
      }
    }
  }

  /** Oldest groups first; the latest user message and everything after it stays. */
  method DropOldest(live: seq<Group>, base: nat, budget: nat, lastUser: int)
    returns (included: seq<bool>, total: nat, k: nat)
    requires Ascending(live)
    ensures |included| == |live| && (forall i :: 0 <= i < |live| ==> included[i] == (i >= k))
    ensures k <= |live| && ShortestDrop(live, base, budget, lastUser, k) && total == base + Cost(live[k..])
  {
    hide Cost;
    included, k := seq(|live|, i => true), 0;
    total := base + Cost(live);
    assert live[0..] == live;
    for i := 0 to |live|
      invariant k <= i && k <= Older(live, lastUser)
      invariant k < i ==> k == Older(live, lastUser)
      invariant |included| == |live| && forall j :: 0 <= j < |live| ==> included[j] == (j >= k)
      invariant total == base + Cost(live[k..])
      invariant forall j :: 0 <= j < k ==> base + Cost(live[j..]) > budget
    {
      if total <= budget { break; }
      if live[i].end >= lastUser { continue; }
      CostFrom(live, i);
      total := total - Tokens(live[i].messages);
      included := included[i := false];
      k := i + 1;
    }
  }

  // ---------------------------------------------------------------- shrinking large results

  /** The selection after the bodies of the first `j` groups were externalised. */
  function ShrunkUpTo(kept: seq<Group>, j: nat, archive: Archive): (r: seq<Group>)
    requires j <= |kept|
    ensures |r| == |kept|
  {
    ShrinkGroups(kept[..j], archive) + kept[j..]
  }

  lemma ShrunkUpToSaves(kept: seq<Group>, j: nat, archive: Archive)
    requires j <= |kept|
    ensures Cost(ShrinkGroups(kept, archive)) <= Cost(ShrunkUpTo(kept, j, archive)) <= Cost(kept)
  {
    assert kept[..j] + kept[j..] == kept;
    assert ShrinkGroups(kept[..j], archive) + ShrinkGroups(kept[j..], archive) == ShrinkGroups(kept, archive);
    CostConcat(kept[..j], kept[j..]);
    CostConcat(ShrinkGroups(kept[..j], archive), kept[j..]);
    CostConcat(ShrinkGroups(kept[..j], archive), ShrinkGroups(kept[j..], archive));
    ShrinkGroupsSaves(kept[..j], archive);
    ShrinkGroupsSaves(kept[j..], archive);
  }

  lemma ShrinkNext(kept: seq<Group>, j: nat, archive: Archive)
    requires j < |kept|
    ensures Cost(ShrunkUpTo(kept, j + 1, archive)) + Tokens(kept[j].messages)
         == Cost(ShrunkUpTo(kept, j, archive)) + Tokens(ShrinkGroup(kept[j], archive).messages)
    ensures ShrunkUpTo(kept, j + 1, archive) == ShrunkUpTo(kept, j, archive)[j := ShrinkGroup(kept[j], archive)]
  {
    hide Cost, ShrinkGroup;
    var done, rest := ShrinkGroups(kept[..j], archive), kept[j + 1..];
    assert ShrunkUpTo(kept, j, archive) == done + ([kept[j]] + rest);
    assert ShrunkUpTo(kept, j + 1, archive) == done + ([ShrinkGroup(kept[j], archive)] + rest);
    CostConcat(done, [kept[j]] + rest);
    CostConcat(done, [ShrinkGroup(kept[j], archive)] + rest);
    CostConcat([kept[j]], rest);
    CostConcat([ShrinkGroup(kept[j], archive)], rest);
    CostOne(kept[j]);
    CostOne(ShrinkGroup(kept[j], archive));
  }

  lemma NoGroupShrunk(kept: seq<Group>, archive: Archive)
    ensures ShrunkUpTo(kept, 0, archive) == kept && ShrunkUpTo(kept, |kept|, archive) == ShrinkGroups(kept, archive)
  {
  }

  lemma ShrinkPair(kept: seq<Group>, j: nat, archive: Archive)
    requires j < |kept| && kept[j].toolPair
    ensures var bodies := ShrinkMessages(kept[j].messages, archive);
            && ShrunkUpTo(kept, j + 1, archive) == ShrunkUpTo(kept, j, archive)[j := kept[j].(messages := bodies)]
            && Cost(ShrunkUpTo(kept, j + 1, archive)) + Tokens(kept[j].messages)
               == Cost(ShrunkUpTo(kept, j, archive)) + Tokens(bodies)
  {
    ShrinkNext(kept, j, archive);
    hide ShrunkUpTo, Cost, ShrinkMessages;
  }

  lemma SkipSingle(kept: seq<Group>, j: nat, archive: Archive)
    requires j < |kept| && !kept[j].toolPair
    ensures ShrunkUpTo(kept, j + 1, archive) == ShrunkUpTo(kept, j, archive)
  {
  }

  predicate IsLarge(m: Message) {
    m.role.Tool? && |m.content| >= SHRINK_FROM
  }

  predicate HasLarge(messages: seq<Message>) {
    exists k :: 0 <= k < |messages| && IsLarge(messages[k])
  }

  lemma ShrinkMessagesNext(messages: seq<Message>, i: nat, archive: Archive)
    requires i < |messages|
    ensures var m := ShrinkMessage(messages[i], archive);
            var before := ShrinkMessages(messages[..i], archive);
            && ShrinkMessages(messages[..i + 1], archive) == before + [m]
            && (before + messages[i..])[i := m] == before + [m] + messages[i + 1..]
            && Tokens(before + [m]) == Tokens(before) + MessageTokens(m)
            && Tokens(messages[..i + 1]) == Tokens(messages[..i]) + MessageTokens(messages[i])
            && (HasLarge(messages[..i + 1]) <==> HasLarge(messages[..i]) || IsLarge(messages[i]))
  {
    hide ShrinkMessage, MessageTokens, IsLarge;
    assert messages[..i + 1][..i] == messages[..i];
    var m := ShrinkMessage(messages[i], archive);
    var before := ShrinkMessages(messages[..i], archive);
    assert (before + [m])[..i] == before;
    if HasLarge(messages[..i]) {
      var k :| 0 <= k < i && IsLarge(messages[..i][k]);
      assert messages[..i + 1][k] == messages[..i][k];
    }
    assert messages[..i + 1][i] == messages[i];
  }

  /** Replace the large bodies of one group, message by message. */
  method ShrinkBodies(messages: seq<Message>, archive: Archive) returns (shrunk: seq<Message>, saved: nat, changed: bool)
    ensures shrunk == ShrinkMessages(messages, archive)
    ensures Tokens(shrunk) + saved == Tokens(messages)
    ensures changed <==> HasLarge(messages)
  {
    hide PointerHead, Unavailable, ShrinkMessages, Tokens, HasLarge;
    shrunk, saved, changed := messages, 0, false;
    NothingShrunk(archive);
    assert messages[..0] == [];
    for i := 0 to |messages|
      invariant shrunk == ShrinkMessages(messages[..i], archive) + messages[i..]
      invariant Tokens(ShrinkMessages(messages[..i], archive)) + saved == Tokens(messages[..i])
      invariant changed <==> HasLarge(messages[..i])
    {
      var m := messages[i];
      ShrinkMessagesNext(messages, i, archive);
      if m.role.Tool? && |m.content| >= SHRINK_FROM {
        var pointer := Pointer(archive(m));
        shrunk := shrunk[i := m.(content := pointer)];
        saved := saved + if EstimateTokens(m.content) > EstimateTokens(pointer)
                         then EstimateTokens(m.content) - EstimateTokens(pointer) else 0;
        changed := true;
      } else {
        assert shrunk[i := m] == shrunk;
      }
    }
    assert messages[..|messages|] == messages;
  }

  lemma NothingShrunk(archive: Archive)
    ensures ShrinkMessages([], archive) == [] && Tokens([]) == 0 && !HasLarge([])
  {
  }

  /** No group is shrunk without need, and shrinking stops as soon as the rest fits. */
  predicate ShortestShrink(kept: seq<Group>, base: nat, budget: nat, archive: Archive, j: nat) {
    && j <= |kept|
    && (forall i :: 0 <= i < j ==> base + Cost(ShrunkUpTo(kept, i, archive)) > budget)
    && (j < |kept| ==> base + Cost(ShrunkUpTo(kept, j, archive)) <= budget)
  }

  method ShrinkOldest(kept: seq<Group>, base: nat, start: nat, budget: nat, archive: Archive)
    returns (shrunk: seq<Group>, total: nat, j: nat, changed: seq<bool>)
    requires start == base + Cost(kept)
    ensures ShortestShrink(kept, base, budget, archive, j)
    ensures shrunk == ShrunkUpTo(kept, j, archive) && total == base + Cost(shrunk)
    ensures |changed| == |kept|
    ensures forall i :: 0 <= i < |kept| ==>
              changed[i] == (i < j && kept[i].toolPair && HasLarge(kept[i].messages))
  {
    hide Cost, ShrinkMessages, HasLarge, ShrinkGroups, ShrunkUpTo, Tokens;
    shrunk, total, j, changed := kept, start, 0, seq(|kept|, i => false);
    NoGroupShrunk(kept, archive);
    while j < |kept| && total > budget
      invariant j <= |kept| && shrunk == ShrunkUpTo(kept, j, archive) && total == base + Cost(shrunk)
      invariant forall i :: 0 <= i < j ==> base + Cost(ShrunkUpTo(kept, i, archive)) > budget
      invariant |changed| == |kept|
      invariant forall i :: 0 <= i < |kept| ==>
                  changed[i] == (i < j && kept[i].toolPair && HasLarge(kept[i].messages))
    {
      if kept[j].toolPair {
        ShrinkPair(kept, j, archive);
        var bodies, saved, large := ShrinkBodies(kept[j].messages, archive);
        shrunk := shrunk[j := kept[j].(messages := bodies)];
        total := total - saved;
        changed := changed[j := large];
      } else {
        SkipSingle(kept, j, archive);
      }
      j := j + 1;
    }
  }

  // ---------------------------------------------------------------- the budget

  datatype Fate = Dropped | Sent | SentShrunk

  /** Either the estimate that cannot be brought down further, or what is sent. */
  datatype Budgeted =
    | OverBudget(required: nat)
    | Fits(messages: seq<Message>, total: nat, fates: seq<Fate>, compacted: bool)

  lemma {:induction false} TilesAscend(groups: seq<Group>, messages: seq<Message>, offset: nat, i: nat, j: nat)
    requires Tiles(groups, messages, offset) && i < j < |groups|
    ensures groups[i].end < groups[j].end
    decreases j
  {
    assert Spans(groups[j], messages, offset);
    assert groups[j - 1 + 1].start == groups[j - 1].end + 1;
    if i < j - 1 { TilesAscend(groups, messages, offset, i, j - 1); }
  }

  lemma {:induction false} LiveAscends(groups: seq<Group>, summarized: set<string>)
    requires Ascending(groups)
    ensures Ascending(Live(groups, summarized))
  {
    if groups != [] {
      var n := |groups| - 1;
      LiveAscends(groups[..n], summarized);
      var before := Live(groups[..n], summarized);
      forall k | 0 <= k < |before| ensures before[k].end < groups[n].end {
        assert before[k] in groups[..n];
      }
    }
  }

  lemma LiveOfTranscript(messages: seq<Message>, summarized: set<string>)
    ensures Ascending(Live(Groups(messages, 0), summarized))
  {
    var groups := Groups(messages, 0);
    GroupsTile(messages, 0);
    forall i, j | 0 <= i < j < |groups| ensures groups[i].end < groups[j].end {
      TilesAscend(groups, messages, 0, i, j);
    }
    LiveAscends(groups, summarized);
  }

  /** What cannot be dropped: the live groups that reach the latest user message. */
  function Mandatory(messages: seq<Message>, summarized: set<string>): seq<Group> {
    var live := Live(Groups(messages, 0), summarized);
    live[Older(live, LastUser(messages))..]
  }

  /** The greedy choice fits exactly when the mandatory groups fit with every large body externalised. */
  lemma GreedyIsExact(live: seq<Group>, base: nat, budget: nat, lastUser: int, k: nat, j: nat, archive: Archive)
    requires ShortestDrop(live, base, budget, lastUser, k) && ShortestShrink(live[k..], base, budget, archive, j)
    ensures base + Cost(ShrunkUpTo(live[k..], j, archive)) > budget
       <==> base + Cost(ShrinkGroups(live[Older(live, lastUser)..], archive)) > budget
    ensures base + Cost(ShrunkUpTo(live[k..], j, archive)) > budget
        ==> ShrunkUpTo(live[k..], j, archive) == ShrinkGroups(live[Older(live, lastUser)..], archive)
  {
    hide Cost, ShrinkGroups, ShrunkUpTo;
    var older := Older(live, lastUser);
    var kept := live[k..];
    NoGroupShrunk(kept, archive);
    ShrunkUpToSaves(kept, j, archive);
    ShrinkGroupsSaves(live[older..], archive);
    CostSuffix(live, k, older);
  }

  predicate FatesFit(fates: seq<Fate>, live: seq<Group>, k: nat, j: nat) {
    && |fates| == |live|
    && forall i :: 0 <= i < |live| ==>
         fates[i] == if i < k then Dropped
                     else if i < k + j && live[i].toolPair && HasLarge(live[i].messages) then SentShrunk else Sent
  }

  method LiveGroups(groups: seq<Group>, summarized: set<string>) returns (live: seq<Group>)
    ensures live == Live(groups, summarized)
  {
    live := [];
    for i := 0 to |groups|
      invariant live == Live(groups[..i], summarized)
    {
      assert groups[..i + 1][..i] == groups[..i];
      if IsLive(groups[i], summarized) { live := live + [groups[i]]; }
    }
    assert groups[..|groups|] == groups;
  }

  /** Select what is sent.  It fails exactly when the mandatory groups, with every large result body
      externalised, are over the budget; otherwise it leaves out the shortest prefix of older groups
      that fits, shrinks the shortest prefix of the rest, and reports the estimate of what it sends. */
  method BudgetMessages(messages: seq<Message>, base: nat, budget: nat, summarized: set<string>, archive: Archive)
    returns (out: Budgeted, ghost k: nat, ghost j: nat)
    ensures out.OverBudget? <==> base + Cost(ShrinkGroups(Mandatory(messages, summarized), archive)) > budget
    ensures out.OverBudget? ==> out.required == base + Cost(ShrinkGroups(Mandatory(messages, summarized), archive))
    ensures var live := Live(Groups(messages, 0), summarized);
            ShortestDrop(live, base, budget, LastUser(messages), k)
            && ShortestShrink(live[k..], base, budget, archive, j)
            && (out.Fits? ==>
                  && out.messages == Flatten(ShrunkUpTo(live[k..], j, archive))
                  && out.total == base + Tokens(out.messages) <= budget
                  && FatesFit(out.fates, live, k, j)
                  && (out.compacted <==> |live| != |Groups(messages, 0)| || exists i :: 0 <= i < |live| && !out.fates[i].Sent?))
  {
    hide ShrinkGroups, ShrunkUpTo, Groups, Tokens, Flatten, HasLarge, Live, LastUser, Older, Ascending, ShortestDrop, ShortestShrink;
    var groups := MessageGroups(messages);
    var live := LiveGroups(groups, summarized);
    LiveOfTranscript(messages, summarized);
    var lastUser := LastUser(messages);
    var included, total, dropped := DropOldest(live, base, budget, lastUser);
    IncludedSuffix(live, included, dropped);
    var kept := Included(live, included);
    var shrunk, final, offered, changed := ShrinkOldest(kept, base, total, budget, archive);
    k, j := dropped, offered;
    GreedyIsExact(live, base, budget, lastUser, k, j, archive);
    if final > budget {
      out := OverBudget(final);
    } else {
      var fates := seq(|live|, i requires 0 <= i < |live| =>
                         if !included[i] then Dropped else if changed[i - dropped] then SentShrunk else Sent);
      var compacted := |live| != |groups| || exists i :: 0 <= i < |live| && !fates[i].Sent?;
      out := Fits(Flatten(shrunk), final, fates, compacted);
    }
  }

  // ---------------------------------------------------------------- what is sent

  function Parts(groups: seq<Group>): (parts: seq<seq<Message>>)
    ensures |parts| == |groups| && forall k :: 0 <= k < |parts| ==> parts[k] == groups[k].messages
  {
    seq(|groups|, i requires 0 <= i < |groups| => groups[i].messages)
  }

  lemma {:induction false} JoinParts(groups: seq<Group>)
    ensures Join(Parts(groups)) == Flatten(groups)
  {
    if groups != [] {
      assert groups == [groups[0]] + groups[1..];
      FlattenConcat([groups[0]], groups[1..]);
      JoinParts(groups[1..]);
      assert Parts(groups)[1..] == Parts(groups[1..]);
      assert Flatten([groups[0]]) == [] + groups[0].messages by { assert [groups[0]][..0] == []; }
    }
  }

  lemma {:induction false} RunIgnoresBodies(rest: seq<Message>, archive: Archive, ids: set<string>)
    ensures Run(ShrinkMessages(rest, archive), ids) == Run(rest, ids)
  {
  }

  lemma FoundIgnoresBodies(rest: seq<Message>, archive: Archive)
    ensures Found(ShrinkMessages(rest, archive)) == Found(rest)
  {
  }

  /** Externalising bodies breaks no pair of calls and results. */
  lemma ShrinkKeepsWhole(part: seq<Message>, archive: Archive)
    requires Whole(part)
    ensures Whole(ShrinkMessages(part, archive))
  {
    var shrunk := ShrinkMessages(part, archive);
    assert shrunk[1..] == ShrinkMessages(part[1..], archive);
    assert shrunk[0] == ShrinkMessage(part[0], archive);
    RunIgnoresBodies(part[1..], archive, CallIds(part[0]));
    FoundIgnoresBodies(part[1..], archive);
    hide Pointer, Run, Found;
  }

  lemma LiveIsWhole(messages: seq<Message>, summarized: set<string>)
    ensures AllWhole(Parts(Live(Groups(messages, 0), summarized)))
  {
    var groups := Groups(messages, 0);
    var live := Live(groups, summarized);
    GroupsTile(messages, 0);
    forall k | 0 <= k < |live| ensures Whole(live[k].messages) {
      assert live[k] in groups;
      var i :| 0 <= i < |groups| && groups[i] == live[k];
      assert Spans(groups[i], messages, 0);
    }
  }

  /** The parts that are sent, in order: whole groups, some with their large bodies externalised. */
  function SentParts(messages: seq<Message>, summarized: set<string>, k: nat, j: nat, archive: Archive): seq<seq<Message>>
    requires k + j <= |Live(Groups(messages, 0), summarized)|
  {
    Parts(ShrunkUpTo(Live(Groups(messages, 0), summarized)[k..], j, archive))
  }

  /** The planner never sends a broken pair: grouping what it sends anew yields exactly the groups
      it kept, in their order, and all of them are valid. */
  lemma SentGroupsStayWhole(messages: seq<Message>, summarized: set<string>, k: nat, j: nat, archive: Archive)
    requires k + j <= |Live(Groups(messages, 0), summarized)|
    ensures var parts := SentParts(messages, summarized, k, j, archive);
            && AllWhole(parts)
            && Flatten(ShrunkUpTo(Live(Groups(messages, 0), summarized)[k..], j, archive)) == Join(parts)
            && Groups(Join(parts), 0) == Relabelled(parts, 0)
  {
    hide Groups, Live, Whole, ShrinkMessages, Join, Flatten;
    var live := Live(Groups(messages, 0), summarized);
    var sent := ShrunkUpTo(live[k..], j, archive);
    LiveIsWhole(messages, summarized);
    forall i | 0 <= i < |sent| ensures Whole(sent[i].messages) {
      assert Whole(Parts(live)[k + i]);
      ShrinkKeepsWhole(live[k + i].messages, archive);
    }
    JoinParts(sent);
    RegroupingKeepsGroups(Parts(sent), 0);
  }

  function Summarised(groups: seq<Group>, summarized: set<string>): seq<Group> {
    if groups == [] then []
    else
      var before, g := Summarised(groups[..|groups| - 1], summarized), groups[|groups| - 1];
      if Covered(g, summarized) then before + [g] else before
  }

  function Orphaned(groups: seq<Group>): seq<Group> {
    if groups == [] then []
    else
      var before, g := Orphaned(groups[..|groups| - 1]), groups[|groups| - 1];
      if g.valid then before else before + [g]
  }

  lemma FlattenAppend(groups: seq<Group>, g: Group)
    ensures multiset(Flatten(groups + [g])) == multiset(Flatten(groups)) + multiset(g.messages)
  {
  }

  /** How one more group is classified. */
  lemma ClassifyNext(groups: seq<Group>, summarized: set<string>)
    requires groups != []
    ensures var before, g := groups[..|groups| - 1], groups[|groups| - 1];
            && Live(groups, summarized) == (if IsLive(g, summarized) then Live(before, summarized) + [g] else Live(before, summarized))
            && Summarised(groups, summarized) == (if Covered(g, summarized) then Summarised(before, summarized) + [g] else Summarised(before, summarized))
            && Orphaned(groups) == (if g.valid then Orphaned(before) else Orphaned(before) + [g])
            && groups == before + [g]
  {
  }

  predicate Partitioned(groups: seq<Group>, live: seq<Group>, summarised: seq<Group>, orphaned: seq<Group>) {
    multiset(Flatten(groups)) == multiset(Flatten(live)) + multiset(Flatten(summarised)) + multiset(Flatten(orphaned))
  }

  lemma PartitionNext(groups: seq<Group>, live: seq<Group>, summarised: seq<Group>, orphaned: seq<Group>, g: Group)
    requires Partitioned(groups, live, summarised, orphaned)
    ensures Partitioned(groups + [g], live + [g], summarised, orphaned)
    ensures Partitioned(groups + [g], live, summarised + [g], orphaned)
    ensures Partitioned(groups + [g], live, summarised, orphaned + [g])
  {
    FlattenAppend(groups, g);
    FlattenAppend(live, g);
    FlattenAppend(summarised, g);
    FlattenAppend(orphaned, g);
    hide Flatten;
  }

  lemma {:induction false} GroupsPartition(groups: seq<Group>, summarized: set<string>)
    ensures Partitioned(groups, Live(groups, summarized), Summarised(groups, summarized), Orphaned(groups))
  {
    if groups != [] {
      var before, g := groups[..|groups| - 1], groups[|groups| - 1];
      GroupsPartition(before, summarized);
      ClassifyNext(groups, summarized);
      PartitionNext(before, Live(before, summarized), Summarised(before, summarized), Orphaned(before), g);
      assert Covered(g, summarized) ==> g.valid;
      hide Covered, Live, Summarised, Orphaned, Partitioned;
    }
  }

  /** Every message of the transcript is dropped, sent, summarised or orphaned, and only one of these. */
  lemma EveryMessageOnce(messages: seq<Message>, summarized: set<string>, k: nat)
    requires k <= |Live(Groups(messages, 0), summarized)|
    ensures var groups := Groups(messages, 0);
            var live := Live(groups, summarized);
            multiset(messages) == multiset(Flatten(live[..k])) + multiset(Flatten(live[k..]))
                                  + multiset(Flatten(Summarised(groups, summarized))) + multiset(Flatten(Orphaned(groups)))
  {
    hide Groups, Live, Flatten, Summarised, Orphaned;
    var groups := Groups(messages, 0);
    var live := Live(groups, summarized);
    GroupsSpell(messages, 0);
    GroupsPartition(groups, summarized);
    assert live == live[..k] + live[k..];
    FlattenConcat(live[..k], live[k..]);
  }

  // ---------------------------------------------------------------- the plan

  datatype Planned =
    | BadBudget
    | TooLarge(required: nat)
    | Plan(messages: seq<Message>, total: nat, fates: seq<Fate>, compacted: bool)

  function ToolTokens(schemas: seq<string>): nat {
    if schemas == [] then 0 else ToolTokens(schemas[..|schemas| - 1]) + EstimateTokens(schemas[|schemas| - 1])
  }

  /** The final check of the total never fails: a plan is refused exactly when the budget is not
      positive or the mandatory groups cannot fit. */
  method MakePlan(messages: seq<Message>, system: string, schemas: seq<string>, budget: int, summarized: set<string>, archive: Archive)
    returns (r: Planned)
    ensures r.BadBudget? <==> budget <= 0
    ensures var base := EstimateTokens(system) + ToolTokens(schemas);
            && (budget > 0 ==>
                  (r.TooLarge? <==> base + Cost(ShrinkGroups(Mandatory(messages, summarized), archive)) > budget))
            && (r.TooLarge? ==> r.required == base + Cost(ShrinkGroups(Mandatory(messages, summarized), archive)))
            && (r.Plan? ==> r.total == base + Tokens(r.messages) <= budget)
    ensures r.Plan? ==> exists parts :: AllWhole(parts) && r.messages == Join(parts) && Groups(r.messages, 0) == Relabelled(parts, 0)
  {
    hide Tokens, Groups, Live, Flatten, ShrunkUpTo, Cost, ShrinkGroups, Join, Mandatory, Whole;
    if budget <= 0 { return BadBudget; }
    var tools := 0;
    for i := 0 to |schemas|
      invariant tools == ToolTokens(schemas[..i])
    {
      assert schemas[..i + 1][..i] == schemas[..i];
      tools := tools + EstimateTokens(schemas[i]);
    }
    assert schemas[..|schemas|] == schemas;
    var out, k, j := BudgetMessages(messages, EstimateTokens(system) + tools, budget, summarized, archive);
    match out
    case OverBudget(required) => r := TooLarge(required);
    case Fits(sent, _, fates, compacted) =>
      var estimate := EstimateMessagesTokens(sent);
      SentGroupsStayWhole(messages, summarized, k, j, archive);
      assert EstimateTokens(system) + tools + estimate <= budget;
      r := Plan(sent, EstimateTokens(system) + tools + estimate, fates, compacted);
  }
}
