/** Splitting a transcript into atomic groups: an assistant message with tool calls together
    with the results that follow it, and every other message on its own. */
module TranscriptGroups {
  import opened Common

  datatype Role = System | User | Assistant | Tool
  /** `arguments` is the canonical JSON text of the arguments. */
  datatype ToolCall = ToolCall(id: string, name: string, arguments: string)
  datatype Message = Message(id: string, role: Role, content: string, calls: seq<ToolCall>, callId: Option<string>)

  /** Positions `start` to `end`, both included, of the transcript. */
  datatype Group = Group(messages: seq<Message>, start: nat, end: nat, valid: bool, toolPair: bool)

  // ---------------------------------------------------------------- token estimates

  function EstimateTokens(text: string): nat {
    if text == "" then 0 else if (|text| + 3) / 4 > 1 then (|text| + 3) / 4 else 1
  }

  /** An estimate is the least number of tokens that holds the text at four characters each. */
  lemma EstimateIsLeast(text: string)
    ensures 4 * EstimateTokens(text) >= |text| && (forall n: nat :: 4 * n >= |text| ==> n >= EstimateTokens(text))
  {
  }

  function CallTokens(calls: seq<ToolCall>): nat {
    if calls == [] then 0
    else CallTokens(calls[..|calls| - 1])
         + EstimateTokens(calls[|calls| - 1].name) + EstimateTokens(calls[|calls| - 1].arguments)
  }

  function MessageTokens(m: Message): nat {
    EstimateTokens(m.content) + CallTokens(m.calls)
  }

  function Tokens(messages: seq<Message>): nat {
    if messages == [] then 0 else Tokens(messages[..|messages| - 1]) + MessageTokens(messages[|messages| - 1])
  }

  lemma {:induction false} TokensConcat(a: seq<Message>, b: seq<Message>)
    ensures Tokens(a + b) == Tokens(a) + Tokens(b)
  {
    if b == [] {
      assert a + b == a;
    } else {
      assert (a + b)[..|a + b| - 1] == a + b[..|b| - 1];
      TokensConcat(a, b[..|b| - 1]);
    }
  }

  /** The estimate the planner and the compactor add up, loop by loop. */
  method EstimateMessagesTokens(messages: seq<Message>) returns (total: nat)
    ensures total == Tokens(messages)
  {
    total := 0;
    for i := 0 to |messages|
      invariant total == Tokens(messages[..i])
    {
      var m := messages[i];
      assert messages[..i + 1][..i] == messages[..i];
      total := total + EstimateTokens(m.content);
      for j := 0 to |m.calls|
        invariant total == Tokens(messages[..i]) + EstimateTokens(m.content) + CallTokens(m.calls[..j])
      {
        assert m.calls[..j + 1][..j] == m.calls[..j];
        total := total + EstimateTokens(m.calls[j].name);
        total := total + EstimateTokens(m.calls[j].arguments);
      }
      assert m.calls[..|m.calls|] == m.calls;
    }
    assert messages[..|messages|] == messages;
  }

  // ---------------------------------------------------------------- groups

  predicate Opens(m: Message) {
    m.role.Assistant? && m.calls != []
  }

  function CallIds(m: Message): set<string> {
    set c | c in m.calls :: c.id
  }

  predicate Follows(m: Message, ids: set<string>) {
    m.role.Tool? && m.callId.Some? && m.callId.value in ids
  }

  /** How many messages at the front are results for the given calls. */
  function Run(rest: seq<Message>, ids: set<string>): (n: nat)
    ensures n <= |rest|
    ensures forall k :: 0 <= k < n ==> Follows(rest[k], ids)
    ensures n < |rest| ==> !Follows(rest[n], ids)
  {
    if rest != [] && Follows(rest[0], ids) then 1 + Run(rest[1..], ids) else 0
  }

  /** The ids answered by a stretch of results; an empty id answers nothing. */
  function Found(results: seq<Message>): set<string> {
    set m | m in results && m.callId.Some? && m.callId.value != "" :: m.callId.value
  }

  function HeadLength(messages: seq<Message>): (n: nat)
    requires messages != []
    ensures 1 <= n <= |messages|
  {
    if Opens(messages[0]) then 1 + Run(messages[1..], CallIds(messages[0])) else 1
  }

  predicate ValidPart(part: seq<Message>)
    requires part != []
  {
    if Opens(part[0]) then Found(part[1..]) == CallIds(part[0]) else !part[0].role.Tool?
  }

  function AsGroup(part: seq<Message>, offset: nat): Group
    requires part != []
  {
    Group(part, offset, offset + |part| - 1, ValidPart(part), Opens(part[0]))
  }

  /** The groups of a transcript whose first message stands at `offset`. */
  function Groups(messages: seq<Message>, offset: nat): (groups: seq<Group>)
    decreases |messages|
  {
    if messages == [] then []
    else
      var n := HeadLength(messages);
      [AsGroup(messages[..n], offset)] + Groups(messages[n..], offset + n)
  }

  lemma HeadOfHead(messages: seq<Message>)
    requires messages != []
    ensures HeadLength(messages[..HeadLength(messages)]) == HeadLength(messages)
  {
  }

  lemma NoGroups(offset: nat)
    ensures Groups([], offset) == []
  {
  }

  lemma GroupsStep(messages: seq<Message>, offset: nat)
    requires messages != []
    ensures var n := HeadLength(messages);
            Groups(messages, offset) == [AsGroup(messages[..n], offset)] + Groups(messages[n..], offset + n)
  {
  }

  /** The results that follow an assistant message, up to the first message that answers none of its calls. */
  method FollowingResults(messages: seq<Message>, start: nat, ids: set<string>) returns (cursor: nat, found: set<string>)
    requires start <= |messages|
    ensures cursor == start + Run(messages[start..], ids) && found == Found(messages[start..cursor])
  {
    cursor, found := start, {};
    while cursor < |messages| && messages[cursor].role.Tool?
      invariant start <= cursor <= |messages| && found == Found(messages[start..cursor])
      invariant Run(messages[start..], ids) == cursor - start + Run(messages[cursor..], ids)
    {
      var result := messages[cursor];
      assert messages[cursor..][1..] == messages[cursor + 1..];
      if result.callId.None? || result.callId.value !in ids { break; }
      assert messages[start..cursor + 1] == messages[start..cursor] + [result];
      if result.callId.value != "" { found := found + {result.callId.value}; }
      cursor := cursor + 1;
    }
  }

  /** Grouping by index and cursor, as the planner does it. */
  method MessageGroups(messages: seq<Message>) returns (groups: seq<Group>)
    ensures groups == Groups(messages, 0)
  {
    hide ValidPart, HeadLength, Groups, AsGroup, Run, Found, CallIds;
    groups := [];
    var index := 0;
    NoGroups(|messages|);
    while index < |messages|
      invariant index <= |messages|
      invariant groups + Groups(messages[index..], index) == Groups(messages, 0)
    {
      var message := messages[index];
      GroupsStep(messages[index..], index);
      if Opens(message) {
        var cursor, found := FollowingResults(messages, index + 1, CallIds(message));
        PairHead(messages, index, cursor);
        groups := groups + [Group(messages[index..cursor], index, cursor - 1, found == CallIds(message), true)];
        index := cursor;
      } else {
        SingleHead(messages, index);
        groups := groups + [Group([message], index, index, !message.role.Tool?, false)];
        index := index + 1;
      }
    }
  }

  lemma PairHead(messages: seq<Message>, index: nat, cursor: nat)
    requires index < cursor <= |messages| && Opens(messages[index])
    requires Run(messages[index + 1..], CallIds(messages[index])) == cursor - index - 1
    ensures var rest := messages[index..];
            && HeadLength(rest) == cursor - index && rest[HeadLength(rest)..] == messages[cursor..]
            && AsGroup(rest[..HeadLength(rest)], index)
               == Group(messages[index..cursor], index, cursor - 1,
                        Found(messages[index + 1..cursor]) == CallIds(messages[index]), true)
  {
    var rest := messages[index..];
    assert rest[1..] == messages[index + 1..];
    assert rest[..HeadLength(rest)] == messages[index..cursor] && messages[index..cursor][1..] == messages[index + 1..cursor];
  }

  lemma SingleHead(messages: seq<Message>, index: nat)
    requires index < |messages| && !Opens(messages[index])
    ensures var rest := messages[index..];
            && HeadLength(rest) == 1 && rest[1..] == messages[index + 1..]
            && AsGroup(rest[..1], index) == Group([messages[index]], index, index, !messages[index].role.Tool?, false)
  {
  }

  // ---------------------------------------------------------------- what grouping keeps

  function Flatten(groups: seq<Group>): seq<Message> {
    if groups == [] then [] else Flatten(groups[..|groups| - 1]) + groups[|groups| - 1].messages
  }

  lemma {:induction false} FlattenConcat(a: seq<Group>, b: seq<Group>)
    ensures Flatten(a + b) == Flatten(a) + Flatten(b)
  {
    if b == [] {
      assert a + b == a;
    } else {
      assert (a + b)[..|a + b| - 1] == a + b[..|b| - 1];
      FlattenConcat(a, b[..|b| - 1]);
    }
  }

  /** Nothing is lost and nothing is said twice: the groups spell the transcript. */
  lemma {:induction false} GroupsSpell(messages: seq<Message>, offset: nat)
    ensures Flatten(Groups(messages, offset)) == messages
    decreases |messages|
  {
    hide ValidPart, HeadLength, Groups;
    if messages == [] {
      NoGroups(offset);
    } else {
      var n := HeadLength(messages);
      var head := AsGroup(messages[..n], offset);
      GroupsStep(messages, offset);
      GroupsSpell(messages[n..], offset + n);
      FlattenConcat([head], Groups(messages[n..], offset + n));
      assert Flatten([head]) == head.messages by { assert [head][..0] == []; }
    }
  }

  /** A group holds exactly the messages between its bounds. */
  predicate Spans(g: Group, messages: seq<Message>, offset: nat) {
    && offset <= g.start <= g.end < offset + |messages|
    && g.messages == messages[g.start - offset..g.end + 1 - offset]
    && g == AsGroup(g.messages, g.start) && HeadLength(g.messages) == |g.messages|
  }

  lemma SpansShift(g: Group, messages: seq<Message>, n: nat, offset: nat)
    requires n <= |messages| && Spans(g, messages[n..], offset + n)
    ensures Spans(g, messages, offset)
  {
  }

  lemma HeadSpans(messages: seq<Message>, offset: nat)
    requires messages != []
    ensures Spans(AsGroup(messages[..HeadLength(messages)], offset), messages, offset)
  {
    HeadOfHead(messages);
  }

  predicate Tiles(groups: seq<Group>, messages: seq<Message>, offset: nat) {
    && (groups == [] <==> messages == [])
    && (groups != [] ==> groups[0].start == offset && groups[|groups| - 1].end == offset + |messages| - 1)
    && (forall k :: 0 <= k < |groups| - 1 ==> groups[k + 1].start == groups[k].end + 1)
    && (forall k :: 0 <= k < |groups| ==> Spans(groups[k], messages, offset))
  }

  /** The groups tile the transcript: in order, without gap or overlap. */
  lemma {:induction false} GroupsTile(messages: seq<Message>, offset: nat)
    ensures Tiles(Groups(messages, offset), messages, offset)
    decreases |messages|
  {
    hide ValidPart, HeadLength, Opens, Groups, Spans;
    if messages == [] {
      NoGroups(offset);
    } else {
      var n := HeadLength(messages);
      var head, tail := AsGroup(messages[..n], offset), Groups(messages[n..], offset + n);
      GroupsStep(messages, offset);
      HeadSpans(messages, offset);
      GroupsTile(messages[n..], offset + n);
      forall k | 0 <= k < |tail| ensures Spans(tail[k], messages, offset) {
        SpansShift(tail[k], messages, n, offset);
      }
    }
  }

  /** A stretch of messages that is one complete, valid group. */
  predicate Whole(part: seq<Message>) {
    part != [] && HeadLength(part) == |part| && ValidPart(part)
  }

  predicate AllWhole(parts: seq<seq<Message>>) {
    forall k :: 0 <= k < |parts| ==> Whole(parts[k])
  }

  function Join(parts: seq<seq<Message>>): seq<Message> {
    if parts == [] then [] else parts[0] + Join(parts[1..])
  }

  /** The groups that the parts are, laid one after the other from `offset`. */
  function Relabelled(parts: seq<seq<Message>>, offset: nat): (groups: seq<Group>)
    requires AllWhole(parts)
    ensures |groups| == |parts|
    ensures forall k :: 0 <= k < |groups| ==> groups[k].messages == parts[k] && groups[k].valid
  {
    if parts == [] then [] else [AsGroup(parts[0], offset)] + Relabelled(parts[1..], offset + |parts[0]|)
  }

  /** A whole group does not swallow a following message that is no tool result. */
  lemma HeadBeforeOther(part: seq<Message>, rest: seq<Message>)
    requires Whole(part) && (rest != [] ==> !rest[0].role.Tool?)
    ensures HeadLength(part + rest) == |part| && (part + rest)[..|part|] == part && (part + rest)[|part|..] == rest
  {
  }

  lemma JoinStartsWithoutResult(parts: seq<seq<Message>>)
    requires AllWhole(parts)
    ensures Join(parts) != [] ==> !Join(parts)[0].role.Tool?
  {
  }

  /** Re-grouping any selection of whole groups yields exactly those groups, all of them valid. */
  lemma {:induction false} RegroupingKeepsGroups(parts: seq<seq<Message>>, offset: nat)
    requires AllWhole(parts)
    ensures Groups(Join(parts), offset) == Relabelled(parts, offset)
    decreases |parts|
  {
    hide ValidPart, Run, CallIds, Opens, HeadLength, Groups;
    if parts == [] {
      NoGroups(offset);
    } else {
      var rest := Join(parts[1..]);
      assert Whole(parts[0]);
      JoinStartsWithoutResult(parts[1..]);
      HeadBeforeOther(parts[0], rest);
      GroupsStep(parts[0] + rest, offset);
      RegroupingKeepsGroups(parts[1..], offset + |parts[0]|);
    }
  }

  /** A group of calls and results is valid exactly when every call has a name to answer to and an
      answer in the group. */
  lemma ValidPairMeans(part: seq<Message>)
    requires part != [] && Opens(part[0]) && HeadLength(part) == |part|
    ensures ValidPart(part) <==>
            forall c :: c in part[0].calls ==> c.id != "" && exists k :: 1 <= k < |part| && part[k].callId == Some(c.id)
  {
    var found, ids := Found(part[1..]), CallIds(part[0]);
    forall id | id in found ensures id in ids {
      var m :| m in part[1..] && m.callId == Some(id);
      assert Follows(m, ids);
    }
    if forall c :: c in part[0].calls ==> c.id != "" && exists k :: 1 <= k < |part| && part[k].callId == Some(c.id) {
      forall id | id in ids ensures id in found {
        var c :| c in part[0].calls && c.id == id;
        var k :| 1 <= k < |part| && part[k].callId == Some(c.id);
        assert part[k] == part[1..][k - 1];
      }
    }
    if ValidPart(part) {
      forall c | c in part[0].calls ensures c.id != "" && exists k :: 1 <= k < |part| && part[k].callId == Some(c.id) {
        assert c.id in found;
        var m :| m in part[1..] && m.callId == Some(c.id);
        var k :| 0 <= k < |part[1..]| && part[1..][k] == m;
        assert part[k + 1].callId == Some(c.id);
      }
    }
  }
}
