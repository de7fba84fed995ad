/** The loop of a run: budget checks, model turns with retries, the assembly of tool calls from the
    stream, verification, and tools.  What the outside world does is given by an environment that
    may answer anything at any step and attempt. */
module RunLoop {
  import opened Common
  import opened UsageAccounting

  datatype Budget = Budget(
    maxSteps: int, maxTokens: int, maxOutput: int, maxCost: Option<real>,
    callsPerTurn: nat, maxCalls: nat, maxArgumentBytes: nat, maxRetries: nat, truncateExcess: bool)

  datatype ErrorKind = Retryable | Provider | OverBudget | Protocol | Stopped

  /** One item of a provider stream; sizes stand for text, ids for tool calls. */
  datatype Item =
    | TextDelta(length: nat)
    | CallStart(id: string)
    | CallDelta(id: string, bytes: nat)
    | CallEnd(id: string, whole: Option<nat>)
    | UsageItem(report: Report)
    | Failure(kind: ErrorKind)
    | DoneItem

  /** What a provider call brought: the text, the calls in their order, and how it ended. */
  datatype Reply = Reply(
    text: nat, order: seq<string>, ended: set<string>, ignored: set<string>, sizes: map<string, nat>,
    report: Report, hadOutput: bool, error: Option<ErrorKind>)

  datatype Verdict = NoPolicy | Accepted | TryAgain | AskHuman | Stop

  datatype Judgement = Judgement(verdict: Verdict, charges: seq<Charge>)

  datatype ToolsOutcome = Unclear | Pausing(alone: bool) | FinalOutput(length: nat, unique: bool) | GoOn

  /** Everything that is decided outside, by step; for provider calls by attempt as well, and for
      judgements by whether tools had run in the step. */
  datatype World = World(
    stopped: int -> bool,
    late: int -> bool,
    compaction: int -> Option<(nat, Charge)>,
    planned: int -> Option<nat>,
    stream: (int, nat) -> seq<Item>,
    judgement: (int, bool) -> Judgement,
    tools: int -> ToolsOutcome)

  datatype Status = Completed | Failed | Interrupted | NeedsHuman | Paused

  datatype Ending = Ending(status: Status, usage: Usage, step: int, output: int, calls: nat, providerCalls: nat)

  // ---------------------------------------------------------------- one provider stream

  function EmptyReply(): Reply {
    Reply(0, [], {}, {}, map[], Report(0, 0, 0), false, None)
  }

  /** The limits that hold whatever the provider streams. */
  predicate WithinLimits(budget: Budget, output: int, calls: nat, r: Reply) {
    && output + r.text <= (if output > budget.maxOutput then output else budget.maxOutput)
    && |r.order| <= budget.callsPerTurn
    && calls + |r.order| <= (if calls > budget.maxCalls then calls else budget.maxCalls)
    && NoRepeats(r.order) && (forall id :: id in r.ended ==> id in r.order)
    && (forall id :: id in r.sizes ==> r.sizes[id] <= budget.maxArgumentBytes)
  }

  /** Text beyond the remaining room is cut off, and ends the turn. */
  function TakeText(budget: Budget, output: int, r: Reply, length: nat): Reply {
    var room := budget.maxOutput - output - r.text;
    if length == 0 then r
    else if room <= 0 then r.(hadOutput := true, error := Some(OverBudget))
    else if length > room then r.(hadOutput := true, text := r.text + room, error := Some(OverBudget))
    else r.(hadOutput := true, text := r.text + length)
  }

  /** A new tool call is taken only while both limits on calls leave room. */
  function OpenCall(budget: Budget, calls: nat, r: Reply, id: string): Reply {
    if |r.order| >= budget.callsPerTurn then
      if budget.truncateExcess then r.(ignored := r.ignored + {id}) else r.(error := Some(OverBudget))
    else if calls + |r.order| >= budget.maxCalls then r.(error := Some(OverBudget))
    else r.(order := r.order + [id], sizes := r.sizes[id := 0])
  }

  function SizeOf(r: Reply, id: string): nat {
    if id in r.sizes then r.sizes[id] else 0
  }

  function EndCall(budget: Budget, calls: nat, r: Reply, id: string, whole: Option<nat>): Reply {
    var taken := if id in r.order then r else OpenCall(budget, calls, r, id);
    if taken.error.Some? || id !in taken.order then taken
    else if whole.Some? && whole.value > budget.maxArgumentBytes then taken.(error := Some(OverBudget))
    else taken.(ended := taken.ended + {id})
  }

  function TakeItem(budget: Budget, output: int, calls: nat, r: Reply, item: Item): Reply {
    match item
    case TextDelta(length) => TakeText(budget, output, r, length)
    case CallStart(id) =>
      var heard := r.(hadOutput := true);
      if id in r.ignored then heard
      else if id in r.order then heard.(error := Some(Protocol))
      else OpenCall(budget, calls, heard, id)
    case CallDelta(id, bytes) =>
      var heard := r.(hadOutput := true);
      if id in r.ignored || id !in r.order || bytes == 0 then heard
      else if SizeOf(r, id) + bytes > budget.maxArgumentBytes then heard.(error := Some(OverBudget))
      else heard.(sizes := heard.sizes[id := SizeOf(r, id) + bytes])
    case CallEnd(id, whole) =>
      var heard := r.(hadOutput := true);
      if id in r.ignored then heard
      else if id in r.ended then heard.(error := Some(Protocol))
      else EndCall(budget, calls, heard, id, whole)
    case UsageItem(report) =>
      r.(report := Report(r.report.input + report.input, r.report.output + report.output, r.report.cached + report.cached))
    case Failure(kind) => r.(error := Some(kind))
    case DoneItem => r
  }

  lemma OpenKeepsLimits(budget: Budget, output: int, calls: nat, r: Reply, id: string)
    requires WithinLimits(budget, output, calls, r) && id !in r.order
    ensures WithinLimits(budget, output, calls, OpenCall(budget, calls, r, id))
  {
  }

  lemma ItemKeepsLimits(budget: Budget, output: int, calls: nat, r: Reply, item: Item)
    requires WithinLimits(budget, output, calls, r)
    ensures WithinLimits(budget, output, calls, TakeItem(budget, output, calls, r, item))
  {
    match item
    case CallStart(id) =>
      if id !in r.order { OpenKeepsLimits(budget, output, calls, r.(hadOutput := true), id); }
    case CallEnd(id, _) =>
      if id !in r.order { OpenKeepsLimits(budget, output, calls, r.(hadOutput := true), id); }
    case _ =>
  }

  /** One provider stream as a reply: item by item, up to its end or the first error. */
  function Fold(budget: Budget, output: int, calls: nat, r: Reply, items: seq<Item>): Reply
    decreases |items|
  {
    if items == [] || items[0].DoneItem? || r.error.Some? then r
    else Fold(budget, output, calls, TakeItem(budget, output, calls, r, items[0]), items[1..])
  }

  function Consumed(budget: Budget, output: int, calls: nat, items: seq<Item>): Reply {
    Fold(budget, output, calls, EmptyReply(), items)
  }

  /** Consume one provider stream, up to its end or the first error. */
  method Consume(budget: Budget, output: int, calls: nat, items: seq<Item>) returns (r: Reply)
    ensures r == Consumed(budget, output, calls, items)
    ensures WithinLimits(budget, output, calls, r)
    ensures r.text > 0 || r.order != [] ==> r.hadOutput
  {
    hide TakeText, OpenCall, EndCall;
    r := EmptyReply();
    assert items[0..] == items;
    for i := 0 to |items|
      invariant Fold(budget, output, calls, r, items[i..]) == Consumed(budget, output, calls, items)
      invariant WithinLimits(budget, output, calls, r) && r.error.None?
      invariant r.text > 0 || r.order != [] ==> r.hadOutput
    {
      if items[i].DoneItem? { break; }
      ItemKeepsLimits(budget, output, calls, r, items[i]);
      ItemIsHeard(budget, output, calls, r, items[i]);
      assert items[i..][0] == items[i] && items[i..][1..] == items[i + 1..];
      r := TakeItem(budget, output, calls, r, items[i]);
      if r.error.Some? { break; }
    }
  }

  lemma ItemIsHeard(budget: Budget, output: int, calls: nat, r: Reply, item: Item)
    requires r.text > 0 || r.order != [] ==> r.hadOutput
    ensures var t := TakeItem(budget, output, calls, r, item); t.text > 0 || t.order != [] ==> t.hadOutput
  {
  }

  // ---------------------------------------------------------------- what a reply holds

  function TextBeforeEnd(items: seq<Item>): nat {
    if items == [] || items[0].DoneItem? then 0
    else (if items[0].TextDelta? then items[0].length else 0) + TextBeforeEnd(items[1..])
  }

  function Plus(a: Report, b: Report): Report {
    Report(a.input + b.input, a.output + b.output, a.cached + b.cached)
  }

  function ReportBeforeEnd(items: seq<Item>): Report {
    if items == [] || items[0].DoneItem? then Report(0, 0, 0)
    else Plus(if items[0].UsageItem? then items[0].report else Report(0, 0, 0), ReportBeforeEnd(items[1..]))
  }

  /** The tool calls that a stream names before its end. */
  function CallsBeforeEnd(items: seq<Item>): set<string> {
    if items == [] || items[0].DoneItem? then {}
    else NamedBy(items[0]) + CallsBeforeEnd(items[1..])
  }

  function Taken(r: Reply): set<string> {
    (set id | id in r.order) + r.ignored
  }

  lemma {:induction false} ErrorEndsFold(budget: Budget, output: int, calls: nat, r: Reply, items: seq<Item>)
    requires r.error.Some?
    ensures Fold(budget, output, calls, r, items) == r
  {
  }

  /** What one item adds to a reply that has no error after it. */
  predicate Adds(before: Reply, after: Reply, item: Item) {
    && after.text == before.text + (if item.TextDelta? then item.length else 0)
    && after.report == Plus(before.report, if item.UsageItem? then item.report else Report(0, 0, 0))
    && Taken(after) == Taken(before) + NamedBy(item)
  }

  function NamedBy(item: Item): set<string> {
    if item.CallStart? || item.CallEnd? then {item.id} else {}
  }

  lemma OpenTakes(budget: Budget, calls: nat, r: Reply, id: string)
    requires OpenCall(budget, calls, r, id).error.None?
    ensures var t := OpenCall(budget, calls, r, id); Taken(t) == Taken(r) + {id} && t.text == r.text && t.report == r.report
  {
  }

  lemma EndTakes(budget: Budget, calls: nat, r: Reply, id: string, whole: Option<nat>)
    requires EndCall(budget, calls, r, id, whole).error.None?
    ensures var t := EndCall(budget, calls, r, id, whole); Taken(t) == Taken(r) + {id} && t.text == r.text && t.report == r.report
  {
    hide OpenCall;
    if id in r.order {
      TakenAlready(r, id);
    } else {
      OpenTakes(budget, calls, r, id);
    }
  }

  lemma TakenAlready(r: Reply, id: string)
    requires id in r.order || id in r.ignored
    ensures Taken(r) + {id} == Taken(r)
  {
  }

  lemma TakenBy(r: Reply, s: Reply)
    requires r.order == s.order && r.ignored == s.ignored
    ensures Taken(r) == Taken(s)
  {
  }

  lemma CallItemHolds(budget: Budget, output: int, calls: nat, r: Reply, item: Item)
    requires TakeItem(budget, output, calls, r, item).error.None? && (item.CallStart? || item.CallEnd?)
    ensures Adds(r, TakeItem(budget, output, calls, r, item), item)
  {
    hide OpenCall, EndCall, Taken;
    var heard := r.(hadOutput := true);
    TakenBy(r, heard);
    if item.id in r.ignored {
      TakenAlready(r, item.id);
    } else if item.CallStart? {
      OpenTakes(budget, calls, heard, item.id);
    } else {
      EndTakes(budget, calls, heard, item.id, item.whole);
    }
  }

  lemma ItemHolds(budget: Budget, output: int, calls: nat, r: Reply, item: Item)
    requires TakeItem(budget, output, calls, r, item).error.None? && !item.DoneItem?
    ensures Adds(r, TakeItem(budget, output, calls, r, item), item)
  {
    hide OpenCall, EndCall, Taken;
    if item.CallStart? || item.CallEnd? {
      CallItemHolds(budget, output, calls, r, item);
    } else {
      TakenBy(r, TakeItem(budget, output, calls, r, item));
    }
  }

  /** What a stream adds to a reply that has no error after it. */
  predicate AddsAll(before: Reply, after: Reply, items: seq<Item>) {
    && after.text == before.text + TextBeforeEnd(items) && after.report == Plus(before.report, ReportBeforeEnd(items))
    && Taken(after) == Taken(before) + CallsBeforeEnd(items)
  }

  lemma AddsFirst(before: Reply, next: Reply, after: Reply, items: seq<Item>)
    requires items != [] && !items[0].DoneItem? && Adds(before, next, items[0]) && AddsAll(next, after, items[1..])
    ensures AddsAll(before, after, items)
  {
    hide Taken;
    assert Taken(before) + NamedBy(items[0]) + CallsBeforeEnd(items[1..]) == Taken(before) + (NamedBy(items[0]) + CallsBeforeEnd(items[1..]));
  }

  lemma AddsNone(r: Reply, items: seq<Item>)
    requires items == [] || items[0].DoneItem?
    ensures AddsAll(r, r, items)
  {
    hide Taken;
  }

  lemma {:induction false} FoldHolds(budget: Budget, output: int, calls: nat, r: Reply, items: seq<Item>)
    requires Fold(budget, output, calls, r, items).error.None?
    ensures AddsAll(r, Fold(budget, output, calls, r, items), items)
    decreases |items|
  {
    hide TakeItem, Adds, AddsAll;
    if items == [] || items[0].DoneItem? {
      AddsNone(r, items);
    } else {
      var next := TakeItem(budget, output, calls, r, items[0]);
      if next.error.Some? { ErrorEndsFold(budget, output, calls, next, items[1..]); }
      ItemHolds(budget, output, calls, r, items[0]);
      FoldHolds(budget, output, calls, next, items[1..]);
      AddsFirst(r, next, Fold(budget, output, calls, r, items), items);
    }
  }

  /** A reply without an error holds all of what was streamed before the end: all text, the sum of all
      reported usage, and every tool call that was named, taken or ignored as excess. */
  lemma AnswerIsWhole(budget: Budget, output: int, calls: nat, items: seq<Item>)
    requires Consumed(budget, output, calls, items).error.None?
    ensures var r := Consumed(budget, output, calls, items);
            r.text == TextBeforeEnd(items) && r.report == ReportBeforeEnd(items) && Taken(r) == CallsBeforeEnd(items)
  {
    FoldHolds(budget, output, calls, EmptyReply(), items);
    assert Taken(EmptyReply()) == {};
  }

  // ---------------------------------------------------------------- which streams are taken

  function BytesBeforeEnd(items: seq<Item>, id: string): nat {
    if items == [] || items[0].DoneItem? then 0
    else (if items[0].CallDelta? && items[0].id == id then items[0].bytes else 0) + BytesBeforeEnd(items[1..], id)
  }

  /** The calls that are started, and those that are ended, in a stream before its end. */
  function StartsBeforeEnd(items: seq<Item>): set<string> {
    if items == [] || items[0].DoneItem? then {}
    else (if items[0].CallStart? then {items[0].id} else {}) + StartsBeforeEnd(items[1..])
  }

  function EndsBeforeEnd(items: seq<Item>): set<string> {
    if items == [] || items[0].DoneItem? then {}
    else (if items[0].CallEnd? then {items[0].id} else {}) + EndsBeforeEnd(items[1..])
  }

  /** No failure; every call is started before anything else is said of it, and ended once; and no text
      of arguments given as a whole is too long. */
  predicate Orderly(budget: Budget, items: seq<Item>) {
    items == [] || items[0].DoneItem?
    || (Orderly(budget, items[1..])
        && match items[0]
           case Failure(_) => false
           case CallStart(id) => id !in StartsBeforeEnd(items[1..])
           case CallEnd(id, whole) => id !in CallsBeforeEnd(items[1..]) && (whole.Some? ==> whole.value <= budget.maxArgumentBytes)
           case _ => true)
  }

  predicate TextFits(budget: Budget, output: int, r: Reply, items: seq<Item>) {
    TextBeforeEnd(items) > 0 ==> output + r.text + TextBeforeEnd(items) <= budget.maxOutput
  }

  ghost predicate BytesFit(budget: Budget, r: Reply, items: seq<Item>) {
    forall id :: SizeOf(r, id) + BytesBeforeEnd(items, id) <= budget.maxArgumentBytes
  }

  predicate CallsFit(budget: Budget, calls: nat, r: Reply, items: seq<Item>) {
    && |Taken(r) + CallsBeforeEnd(items)| <= budget.callsPerTurn
    && calls + |Taken(r) + CallsBeforeEnd(items)| <= budget.maxCalls
    && StartsBeforeEnd(items) !! Taken(r) && EndsBeforeEnd(items) !! r.ended
    && r.ignored == {} && NoRepeats(r.order)
  }

  /** What is still to come fits into what is left. */
  ghost predicate Fits(budget: Budget, output: int, calls: nat, r: Reply, items: seq<Item>) {
    TextFits(budget, output, r, items) && BytesFit(budget, r, items) && CallsFit(budget, calls, r, items)
  }

  lemma OrderIsSet(ids: seq<string>)
    requires NoRepeats(ids)
    ensures |set id | id in ids| == |ids|
  {
    if ids != [] {
      var n := |ids| - 1;
      OrderIsSet(ids[..n]);
      assert (set id | id in ids) == (set id | id in ids[..n]) + {ids[n]};
    }
  }

  lemma TakenCounts(r: Reply)
    requires r.ignored == {} && NoRepeats(r.order)
    ensures |Taken(r)| == |r.order|
  {
    OrderIsSet(r.order);
    assert Taken(r) == set id | id in r.order;
  }

  /** There is room for a call that is to come. */
  lemma RoomForOne(budget: Budget, calls: nat, r: Reply, all: set<string>, id: string)
    requires r.ignored == {} && NoRepeats(r.order) && id !in r.order && id in all && Taken(r) <= all
    requires |all| <= budget.callsPerTurn && calls + |all| <= budget.maxCalls
    ensures OpenCall(budget, calls, r, id) == r.(order := r.order + [id], sizes := r.sizes[id := 0])
  {
    TakenCounts(r);
    SubsetIsSmaller(Taken(r) + {id}, all);
    assert |Taken(r) + {id}| == |Taken(r)| + 1;
  }

  lemma {:induction false} NamedAnyway(items: seq<Item>)
    ensures StartsBeforeEnd(items) <= CallsBeforeEnd(items) && EndsBeforeEnd(items) <= CallsBeforeEnd(items)
  {
    if items != [] && !items[0].DoneItem? { NamedAnyway(items[1..]); }
  }

  /** An item that names no call leaves what is to come of calls. */
  lemma SameCalls(items: seq<Item>)
    requires items != [] && (items[0].TextDelta? || items[0].CallDelta? || items[0].UsageItem?)
    ensures CallsBeforeEnd(items) == CallsBeforeEnd(items[1..]) && StartsBeforeEnd(items) == StartsBeforeEnd(items[1..])
    ensures EndsBeforeEnd(items) == EndsBeforeEnd(items[1..])
  {
  }

  lemma SameCallsFit(budget: Budget, calls: nat, r: Reply, t: Reply, items: seq<Item>)
    requires items != [] && (items[0].TextDelta? || items[0].CallDelta? || items[0].UsageItem?)
    requires CallsFit(budget, calls, r, items) && t.order == r.order && t.ignored == r.ignored && t.ended == r.ended
    ensures CallsFit(budget, calls, t, items[1..])
  {
    hide Taken, NoRepeats, CallsBeforeEnd, StartsBeforeEnd, EndsBeforeEnd;
    SameCalls(items);
    TakenBy(r, t);
  }

  lemma OrderlyPiece(budget: Budget, output: int, calls: nat, r: Reply, items: seq<Item>)
    requires items != [] && (items[0].TextDelta? || items[0].CallDelta? || items[0].UsageItem?)
    requires Fits(budget, output, calls, r, items) && r.error.None?
    ensures TakeItem(budget, output, calls, r, items[0]).error.None?
    ensures Fits(budget, output, calls, TakeItem(budget, output, calls, r, items[0]), items[1..])
  {
    hide CallsFit;
    var t := TakeItem(budget, output, calls, r, items[0]);
    if items[0].CallDelta? { assert SizeOf(r, items[0].id) + BytesBeforeEnd(items, items[0].id) <= budget.maxArgumentBytes; }
    forall id ensures SizeOf(t, id) + BytesBeforeEnd(items[1..], id) <= budget.maxArgumentBytes {
      assert SizeOf(r, id) + BytesBeforeEnd(items, id) <= budget.maxArgumentBytes;
    }
    SameCallsFit(budget, calls, r, t, items);
  }

  lemma CallsSplit(items: seq<Item>)
    requires items != [] && (items[0].CallStart? || items[0].CallEnd?)
    ensures CallsBeforeEnd(items) == {items[0].id} + CallsBeforeEnd(items[1..])
    ensures StartsBeforeEnd(items[1..]) <= StartsBeforeEnd(items) && EndsBeforeEnd(items[1..]) <= EndsBeforeEnd(items)
    ensures items[0].CallStart? ==> items[0].id in StartsBeforeEnd(items)
    ensures items[0].CallEnd? ==> items[0].id in EndsBeforeEnd(items)
  {
  }

  lemma TakenNext(r: Reply, t: Reply, id: string)
    requires t.ignored == r.ignored && t.order == if id in r.order then r.order else r.order + [id]
    ensures Taken(t) == Taken(r) + {id} && (NoRepeats(r.order) ==> NoRepeats(t.order))
  {
  }

  /** What fits still fits when a call that was to come has been opened. */
  lemma OpenedCallsFit(budget: Budget, calls: nat, r: Reply, t: Reply, items: seq<Item>, ended: set<string>)
    requires items != [] && (items[0].CallStart? || items[0].CallEnd?) && CallsFit(budget, calls, r, items)
    requires t.ignored == {} && t.ended == r.ended + ended && EndsBeforeEnd(items[1..]) !! ended
    requires t.order == if items[0].id in r.order then r.order else r.order + [items[0].id]
    requires items[0].id !in StartsBeforeEnd(items[1..])
    ensures CallsFit(budget, calls, t, items[1..])
  {
    hide Taken, NoRepeats, CallsBeforeEnd, StartsBeforeEnd, EndsBeforeEnd;
    CallsSplit(items);
    TakenNext(r, t, items[0].id);
    assert Taken(t) + CallsBeforeEnd(items[1..]) == Taken(r) + CallsBeforeEnd(items);
  }

  lemma OpenedBytesFit(budget: Budget, r: Reply, t: Reply, items: seq<Item>)
    requires items != [] && (items[0].CallStart? || items[0].CallEnd?) && BytesFit(budget, r, items)
    requires t.sizes == if items[0].id in r.order then r.sizes else r.sizes[items[0].id := 0]
    ensures BytesFit(budget, t, items[1..])
  {
    forall id ensures SizeOf(t, id) + BytesBeforeEnd(items[1..], id) <= budget.maxArgumentBytes {
      assert SizeOf(r, id) + BytesBeforeEnd(items, id) <= budget.maxArgumentBytes;
    }
  }

  /** An orderly call that is to come is opened, and ended if it is. */
  lemma CallIsTaken(budget: Budget, output: int, calls: nat, r: Reply, items: seq<Item>)
    requires items != [] && (items[0].CallStart? || items[0].CallEnd?) && r.error.None? && r.ignored == {}
    requires items[0].CallStart? ==> items[0].id !in r.order
    requires items[0].CallEnd? ==> items[0].id !in r.ended && (items[0].whole.Some? ==> items[0].whole.value <= budget.maxArgumentBytes)
    requires var heard := r.(hadOutput := true);
             items[0].id !in r.order ==>
               OpenCall(budget, calls, heard, items[0].id) == heard.(order := r.order + [items[0].id], sizes := r.sizes[items[0].id := 0])
    ensures var t := TakeItem(budget, output, calls, r, items[0]);
            && t.error.None? && t.text == r.text && t.ignored == {}
            && t.ended == r.ended + (if items[0].CallEnd? then {items[0].id} else {})
            && t.order == (if items[0].id in r.order then r.order else r.order + [items[0].id])
            && t.sizes == if items[0].id in r.order then r.sizes else r.sizes[items[0].id := 0]
  {
    hide OpenCall;
    assert r.ended + {} == r.ended;
  }

  lemma OrderlyCall(budget: Budget, output: int, calls: nat, r: Reply, items: seq<Item>)
    requires items != [] && (items[0].CallStart? || items[0].CallEnd?) && Orderly(budget, items)
    requires Fits(budget, output, calls, r, items) && r.error.None?
    ensures TakeItem(budget, output, calls, r, items[0]).error.None?
    ensures Fits(budget, output, calls, TakeItem(budget, output, calls, r, items[0]), items[1..])
  {
    hide OpenCall, TakeItem, Taken, NoRepeats, StartsBeforeEnd, EndsBeforeEnd, CallsBeforeEnd, BytesBeforeEnd, SizeOf, BytesFit;
    var id, heard := items[0].id, r.(hadOutput := true);
    var t := TakeItem(budget, output, calls, r, items[0]);
    NamedAnyway(items[1..]);
    TakenBy(r, heard);
    CallsSplit(items);
    TakenHolds(r, id);
    if id !in r.order { RoomForOne(budget, calls, heard, Taken(r) + CallsBeforeEnd(items), id); }
    CallIsTaken(budget, output, calls, r, items);
    OpenedCallsFit(budget, calls, r, t, items, if items[0].CallEnd? then {id} else {});
    OpenedBytesFit(budget, r, t, items);
    hide CallsFit;
  }

  lemma TakenHolds(r: Reply, id: string)
    ensures id in r.order ==> id in Taken(r)
  {
  }

  /** Taking one item of a stream that fits. */
  lemma OrderlyItem(budget: Budget, output: int, calls: nat, r: Reply, items: seq<Item>)
    requires items != [] && !items[0].DoneItem? && Orderly(budget, items) && r.error.None?
    requires Fits(budget, output, calls, r, items)
    ensures TakeItem(budget, output, calls, r, items[0]).error.None?
    ensures Fits(budget, output, calls, TakeItem(budget, output, calls, r, items[0]), items[1..])
  {
    hide Fits, TakeItem;
    match items[0]
    case CallStart(_) => OrderlyCall(budget, output, calls, r, items);
    case CallEnd(_, _) => OrderlyCall(budget, output, calls, r, items);
    case _ => OrderlyPiece(budget, output, calls, r, items);
  }

  /** A stream that is orderly and fits into what is left is taken without an error. */
  lemma {:induction false} OrderlyIsTaken(budget: Budget, output: int, calls: nat, r: Reply, items: seq<Item>)
    requires Orderly(budget, items) && Fits(budget, output, calls, r, items) && r.error.None?
    ensures Fold(budget, output, calls, r, items).error.None?
    decreases |items|
  {
    hide Fits, TakeItem;
    if items != [] && !items[0].DoneItem? {
      OrderlyItem(budget, output, calls, r, items);
      OrderlyIsTaken(budget, output, calls, TakeItem(budget, output, calls, r, items[0]), items[1..]);
    }
  }

  /** A whole stream is taken without an error when it is orderly and its text, its calls and the
      arguments of each call are within their limits. */
  lemma StreamIsTaken(budget: Budget, output: int, calls: nat, items: seq<Item>)
    requires Orderly(budget, items) && (TextBeforeEnd(items) > 0 ==> output + TextBeforeEnd(items) <= budget.maxOutput)
    requires forall id :: BytesBeforeEnd(items, id) <= budget.maxArgumentBytes
    requires |CallsBeforeEnd(items)| <= budget.callsPerTurn && calls + |CallsBeforeEnd(items)| <= budget.maxCalls
    ensures Consumed(budget, output, calls, items).error.None?
  {
    hide Orderly, CallsBeforeEnd, StartsBeforeEnd, EndsBeforeEnd, BytesBeforeEnd, TextBeforeEnd, Fold;
    assert Taken(EmptyReply()) == {};
    assert {} + CallsBeforeEnd(items) == CallsBeforeEnd(items);
    forall id ensures SizeOf(EmptyReply(), id) + BytesBeforeEnd(items, id) <= budget.maxArgumentBytes {
    }
    OrderlyIsTaken(budget, output, calls, EmptyReply(), items);
  }

  // ---------------------------------------------------------------- one model turn

  /** Whether the cost allowance still admits a provider call that is asked for some output. */
  predicate Affordable(budget: Budget, pricing: Pricing, usage: Usage, manifest: nat) {
    budget.maxCost.None? || Cost(usage, pricing).None?
    || var left := Left(budget, pricing, usage, manifest);
       left > 0.0 && (pricing.output.value > 0.0 ==> (left * 1000000.0 / pricing.output.value).Floor > 0)
  }

  /** What is left of the allowance once the planned input is paid. */
  function Left(budget: Budget, pricing: Pricing, usage: Usage, manifest: nat): real
    requires budget.maxCost.Some? && Cost(usage, pricing).Some?
  {
    budget.maxCost.value - Cost(usage, pricing).value - manifest as real * pricing.input.value / 1000000.0
  }

  lemma ApplyNext(usage: Usage, charges: seq<Charge>, c: Charge)
    ensures ApplyAll(usage, charges + [c]) == Apply(ApplyAll(usage, charges), c)
  {
  }

  lemma {:induction false} ApplyMore(usage: Usage, early: seq<Charge>, late: seq<Charge>)
    ensures ApplyAll(usage, early + late) == ApplyAll(ApplyAll(usage, early), late)
  {
    if late == [] {
      assert early + late == early;
    } else {
      assert (early + late)[..|early + late| - 1] == early + late[..|late| - 1];
      ApplyMore(usage, early, late[..|late| - 1]);
    }
  }

  /** Tokens of a text by its length, when the provider does not say. */
  function EstimateTokens(length: nat): nat {
    if length == 0 then 0 else (length + 3) / 4
  }

  predicate MayAsk(budget: Budget, pricing: Pricing, usage: Usage, manifest: nat) {
    budget.maxTokens - usage.total > 0 && Affordable(budget, pricing, usage, manifest)
  }

  /** The provider failed in a way that may pass, and nothing was heard from it. */
  predicate Replayable(r: Reply) {
    r.error.Some? && r.error.value.Retryable? && !r.hadOutput
  }

  /** The last reply was charged as a retry, because another one was due. */
  predicate Retried(budget: Budget, replies: seq<Reply>) {
    replies != [] && |replies| <= budget.maxRetries && Replayable(replies[|replies| - 1])
  }

  function RetryCharges(manifest: nat, replies: seq<Reply>): (charges: seq<Charge>)
    ensures |charges| == |replies|
  {
    seq(|replies|, i requires 0 <= i < |replies| => Retry(replies[i].report, manifest, EstimateTokens(replies[i].text)))
  }

  /** The replies that were charged as retries: all, or all but the last. */
  function Discarded(budget: Budget, replies: seq<Reply>): (r: seq<Reply>)
    ensures r <= replies
  {
    if replies == [] || Retried(budget, replies) then replies else replies[..|replies| - 1]
  }

  function LastReply(replies: seq<Reply>): Reply {
    if replies == [] then EmptyReply() else replies[|replies| - 1]
  }

  /** Exactly the provider calls of one turn: each reads its own stream, all but the last failed in a
      way that may pass, and each found the budget open after the retries charged before it. */
  ghost predicate Asked(budget: Budget, pricing: Pricing, world: World, step: int, manifest: nat, start: Usage, output: int,
                        calls: nat, replies: seq<Reply>)
  {
    && |replies| <= 1 + budget.maxRetries
    && (forall i :: 0 <= i < |replies| ==> replies[i] == Consumed(budget, output, calls, world.stream(step, i + 1)))
    && (forall i :: 0 <= i < |replies| - 1 ==> Replayable(replies[i]))
    && (forall i :: 0 <= i < |replies| ==> MayAsk(budget, pricing, ApplyAll(start, RetryCharges(manifest, replies[..i])), manifest))
  }

  /** The budget closed before another provider call could be made. */
  predicate ShutOut(budget: Budget, replies: seq<Reply>) {
    replies == [] || Retried(budget, replies)
  }

  lemma NextRetry(manifest: nat, replies: seq<Reply>, r: Reply)
    ensures RetryCharges(manifest, replies + [r])
         == RetryCharges(manifest, replies) + [Retry(r.report, manifest, EstimateTokens(r.text))]
  {
  }

  lemma AskedNext(budget: Budget, pricing: Pricing, world: World, step: int, manifest: nat, start: Usage, output: int,
                  calls: nat, replies: seq<Reply>, r: Reply)
    requires Asked(budget, pricing, world, step, manifest, start, output, calls, replies)
    requires |replies| <= budget.maxRetries && (replies != [] ==> Replayable(replies[|replies| - 1]))
    requires r == Consumed(budget, output, calls, world.stream(step, |replies| + 1))
    requires MayAsk(budget, pricing, ApplyAll(start, RetryCharges(manifest, replies)), manifest)
    ensures Asked(budget, pricing, world, step, manifest, start, output, calls, replies + [r])
  {
    hide Consumed, MayAsk, ApplyAll, RetryCharges, Replayable;
    var more := replies + [r];
    forall i | 0 <= i < |more| ensures MayAsk(budget, pricing, ApplyAll(start, RetryCharges(manifest, more[..i])), manifest) {
      if i < |replies| { assert more[..i] == replies[..i]; } else { assert more[..i] == replies; }
    }
  }

  /** Nothing was taken from a reply that is given up for another attempt. */
  predicate GivenUp(r: Reply) {
    r.error == Some(Retryable) && !r.hadOutput
  }

  lemma GivenUpMeans()
    ensures forall r: Reply {:trigger Replayable(r)} {:trigger GivenUp(r)} :: Replayable(r) <==> GivenUp(r)
  {
  }

  lemma OpenKeepsHeard(budget: Budget, calls: nat, r: Reply, id: string, whole: Option<nat>)
    ensures OpenCall(budget, calls, r, id).hadOutput == r.hadOutput && EndCall(budget, calls, r, id, whole).hadOutput == r.hadOutput
  {
  }

  lemma ItemIsNoticed(budget: Budget, output: int, calls: nat, r: Reply, item: Item)
    ensures var t := TakeItem(budget, output, calls, r, item);
            && (r.hadOutput ==> t.hadOutput)
            && ((item.TextDelta? && item.length > 0) || item.CallStart? || item.CallDelta? || item.CallEnd? ==> t.hadOutput)
            && (!t.hadOutput ==> t.text == r.text && t.order == r.order && t.ignored == r.ignored)
  {
    hide OpenCall, EndCall;
    if item.CallStart? || item.CallEnd? {
      OpenKeepsHeard(budget, calls, r.(hadOutput := true), item.id, if item.CallEnd? then item.whole else None);
    }
  }

  /** A reply without output took nothing: no text and no call. */
  lemma {:induction false} SilentHeardNothing(budget: Budget, output: int, calls: nat, r: Reply, items: seq<Item>)
    requires !Fold(budget, output, calls, r, items).hadOutput
    ensures var t := Fold(budget, output, calls, r, items); !r.hadOutput && t.text == r.text && t.order == r.order && t.ignored == r.ignored
    decreases |items|
  {
    hide OpenCall, EndCall;
    if items != [] && !items[0].DoneItem? && r.error.None? {
      ItemIsNoticed(budget, output, calls, r, items[0]);
      hide TakeItem;
      SilentHeardNothing(budget, output, calls, TakeItem(budget, output, calls, r, items[0]), items[1..]);
    }
  }

  lemma DiscardedAreGivenUp(budget: Budget, pricing: Pricing, world: World, step: int, manifest: nat, start: Usage, output: int,
                            calls: nat, replies: seq<Reply>)
    requires Asked(budget, pricing, world, step, manifest, start, output, calls, replies)
    ensures forall i :: 0 <= i < |replies| - 1 ==> GivenUp(replies[i])
  {
    hide Consumed, MayAsk, RetryCharges;
  }

  /** A provider call may be made, exactly: tokens are left, and, where the cost is capped and known, so
      is something beyond the price of the input that buys at least one token of output. */
  lemma MayAskMeans(budget: Budget, pricing: Pricing, usage: Usage, manifest: nat)
    requires pricing.input.Some? && pricing.output.Some? && pricing.output.value >= 0.0
    ensures MayAsk(budget, pricing, usage, manifest)
       <==> usage.total < budget.maxTokens
            && (budget.maxCost.Some? ==>
                  var left := Left(budget, pricing, usage, manifest);
                  left > 0.0 && left * 1000000.0 >= pricing.output.value)
  {
    assert Cost(usage, pricing).Some?;
    hide Cost, Left;
    if budget.maxCost.Some? && pricing.output.value > 0.0 {
      BuysOne(Left(budget, pricing, usage, manifest) * 1000000.0, pricing.output.value);
    }
  }

  lemma BuysOne(money: real, price: real)
    requires price > 0.0
    ensures (money / price).Floor > 0 <==> money >= price
  {
    assert money / price * price == money;
    if money >= price { Quotient(money / price, 1.0, price); } else { Quotient(1.0, money / price, price); }
  }

  lemma Quotient(a: real, b: real, c: real)
    requires c > 0.0
    ensures a * c >= b * c <==> a >= b
  {
  }

  /** Call the provider until it answers, fails for good, or was asked often enough. */
  method Ask(budget: Budget, pricing: Pricing, world: World, step: int, manifest: nat, start: Usage, output: int, calls: nat)
    returns (reply: Reply, usage: Usage, charged: bool, asked: nat, ghost replies: seq<Reply>)
    ensures Asked(budget, pricing, world, step, manifest, start, output, calls, replies) && asked == |replies|
    ensures usage == ApplyAll(start, RetryCharges(manifest, Discarded(budget, replies)))
    ensures charged == Retried(budget, replies) && (ShutOut(budget, replies) ==> !MayAsk(budget, pricing, usage, manifest))
    ensures reply == if ShutOut(budget, replies) then LastReply(replies).(error := Some(OverBudget)) else LastReply(replies)
    ensures WithinLimits(budget, output, calls, reply)
    ensures forall i :: 0 <= i < |replies| - 1 ==> GivenUp(replies[i])
    ensures replies != [] && |replies| <= budget.maxRetries && !GivenUp(replies[|replies| - 1]) ==> reply == replies[|replies| - 1]
  {
    hide WithinLimits, Apply, ApplyAll, Cost, Affordable, Consumed, RetryCharges, Asked, GivenUp;
    GivenUpMeans();
    EmptyKeepsLimits(budget, output, calls);
    NobodyAsked(budget, pricing, world, step, manifest, start, output, calls);
    var attempt := 1;
    reply, usage, charged, asked, replies := EmptyReply(), start, false, 0, [];
    while true
      invariant 1 <= attempt <= 1 + budget.maxRetries && asked == attempt - 1 == |replies|
      invariant Asked(budget, pricing, world, step, manifest, start, output, calls, replies)
      invariant usage == ApplyAll(start, RetryCharges(manifest, replies))
      invariant charged == (replies != []) && (replies != [] ==> Replayable(replies[|replies| - 1]))
      invariant reply == LastReply(replies) && WithinLimits(budget, output, calls, reply)
      decreases budget.maxRetries - attempt
    {
      if budget.maxTokens - usage.total <= 0 || !Affordable(budget, pricing, usage, manifest) {
        ErrorKeepsLimits(budget, output, calls, reply, OverBudget);
        reply := reply.(error := Some(OverBudget));
        break;
      }
      charged := false;
      reply := Consume(budget, output, calls, world.stream(step, attempt));
      AskedNext(budget, pricing, world, step, manifest, start, output, calls, replies, reply);
      NextRetry(manifest, replies, reply);
      ghost var before := replies;
      asked, replies := asked + 1, replies + [reply];
      assert replies[..|replies| - 1] == before;
      if reply.error.None? { break; }
      if reply.hadOutput || !reply.error.value.Retryable? || attempt > budget.maxRetries { break; }
      var c := Retry(reply.report, manifest, EstimateTokens(reply.text));
      ApplyNext(start, RetryCharges(manifest, before), c);
      usage, charged := Apply(usage, c), true;
      attempt := attempt + 1;
    }
    DiscardedAreGivenUp(budget, pricing, world, step, manifest, start, output, calls, replies);
  }

  lemma NobodyAsked(budget: Budget, pricing: Pricing, world: World, step: int, manifest: nat, start: Usage, output: int, calls: nat)
    ensures Asked(budget, pricing, world, step, manifest, start, output, calls, [])
    ensures RetryCharges(manifest, []) == [] && ApplyAll(start, []) == start
  {
  }

  lemma EmptyKeepsLimits(budget: Budget, output: int, calls: nat)
    ensures WithinLimits(budget, output, calls, EmptyReply())
  {
  }

  lemma ErrorKeepsLimits(budget: Budget, output: int, calls: nat, r: Reply, kind: ErrorKind)
    requires WithinLimits(budget, output, calls, r)
    ensures WithinLimits(budget, output, calls, r.(error := Some(kind)))
  {
  }

  predicate CostExceeded(budget: Budget, pricing: Pricing, usage: Usage) {
    budget.maxCost.Some? && Cost(usage, pricing).Some? && Cost(usage, pricing).value > budget.maxCost.value
  }

  /** A verification is charged even though it comes last; an unknown cost counts as too much then. */
  predicate Overspent(budget: Budget, pricing: Pricing, usage: Usage) {
    usage.total > budget.maxTokens
    || (budget.maxCost.Some? && (Cost(usage, pricing).None? || Cost(usage, pricing).value > budget.maxCost.value))
  }

  /** The checks before a turn; they leave room for at least something. */
  predicate MayBegin(budget: Budget, pricing: Pricing, usage: Usage, step: int, output: int) {
    && step < budget.maxSteps && usage.total < budget.maxTokens && output < budget.maxOutput
    && (budget.maxCost.Some? ==> Cost(usage, pricing).Some? && Cost(usage, pricing).value < budget.maxCost.value)
  }

  function AllCalls(limit: nat, before: nat): nat {
    if before > limit then before else limit
  }

  /** Within all caps on tokens, cost, output and steps. */
  predicate Within(budget: Budget, pricing: Pricing, p: Progress) {
    && p.usage.total <= budget.maxTokens && p.output <= budget.maxOutput && p.step <= budget.maxSteps
    && (budget.maxCost.Some? ==> Cost(p.usage, pricing).Some? && Cost(p.usage, pricing).value <= budget.maxCost.value)
  }

  /** What a completed run guarantees, whatever the provider reported or streamed. */
  predicate Honoured(budget: Budget, pricing: Pricing, e: Ending, callsBefore: nat) {
    && e.usage.total <= budget.maxTokens && e.output <= budget.maxOutput && e.step <= budget.maxSteps
    && (budget.maxCost.Some? ==> Cost(e.usage, pricing).Some? && Cost(e.usage, pricing).value <= budget.maxCost.value)
    && e.calls <= AllCalls(budget.maxCalls, callsBefore)
  }

  // ---------------------------------------------------------------- what a turn is charged

  /** The charges of a turn, one for each of its provider calls: retries for those that were given up,
      and the turn itself for the last, unless that was given up too.  A turn that could not ask at all
      is charged as well, by estimate. */
  function TurnCharges(budget: Budget, manifest: nat, replies: seq<Reply>): (charges: seq<Charge>)
    ensures |charges| == if replies == [] then 1 else |replies|
  {
    var last := LastReply(replies);
    RetryCharges(manifest, Discarded(budget, replies))
    + if Retried(budget, replies) then [] else [Turn(last.report, manifest, EstimateTokens(last.text))]
  }

  lemma BilledByEstimate(usage: Usage, manifest: nat)
    ensures Apply(usage, Turn(Report(0, 0, 0), manifest, 0)) == Usage(usage.input + manifest, usage.output, usage.total + manifest, usage.cached)
  {
    assert TurnReport(Report(0, 0, 0), manifest, 0) == Report(manifest, 0, 0);
    assert BillableInput(manifest, manifest) == manifest && BillableOutput(0, 0) == 0;
  }

  lemma NobodyIsBilled(budget: Budget, manifest: nat)
    ensures TurnCharges(budget, manifest, []) == [Turn(Report(0, 0, 0), manifest, 0)]
  {
  }

  /** A turn whose first provider call the budget refuses is billed the planned input all the same. */
  lemma UnaskedTurnIsBilled(budget: Budget, manifest: nat, usage: Usage)
    ensures ApplyAll(usage, TurnCharges(budget, manifest, [])) == Usage(usage.input + manifest, usage.output, usage.total + manifest, usage.cached)
  {
    hide Apply, ApplyAll, TurnCharges;
    var c := Turn(Report(0, 0, 0), manifest, 0);
    NobodyIsBilled(budget, manifest);
    ApplyNext(usage, [], c);
    assert [] + [c] == [c];
    NothingApplied(usage);
    BilledByEstimate(usage, manifest);
  }

  /** How a turn ended: the budget was closed, the arguments of a call were cut short, or the caps were
      passed by what the turn cost. */
  function Concluded(budget: Budget, pricing: Pricing, after: Usage, replies: seq<Reply>): Reply {
    var last := LastReply(replies);
    if ShutOut(budget, replies) then last.(error := Some(OverBudget))
    else if last.error.Some? then last
    else if exists id :: id in last.order && id !in last.ended then last.(error := Some(Protocol))
    else if after.total > budget.maxTokens || CostExceeded(budget, pricing, after) then last.(error := Some(OverBudget))
    else last
  }

  /** One model turn: ask the provider, charge what was not charged, and apply the caps. */
  method TakeTurn(budget: Budget, pricing: Pricing, world: World, step: int, manifest: nat, start: Usage, output: int, calls: nat)
    returns (reply: Reply, usage: Usage, asked: nat, ghost replies: seq<Reply>)
    ensures Asked(budget, pricing, world, step, manifest, start, output, calls, replies) && asked == |replies|
    ensures ShutOut(budget, replies) ==>
              !MayAsk(budget, pricing, ApplyAll(start, RetryCharges(manifest, Discarded(budget, replies))), manifest)
    ensures usage == ApplyAll(start, TurnCharges(budget, manifest, replies))
    ensures reply == Concluded(budget, pricing, usage, replies) && WithinLimits(budget, output, calls, reply)
  {
    hide WithinLimits, Apply, ApplyAll, Cost, Asked, RetryCharges, MayAsk;
    var charged;
    reply, usage, charged, asked, replies := Ask(budget, pricing, world, step, manifest, start, output, calls);
    var error := reply.error;
    if error.None? && exists id :: id in reply.order && id !in reply.ended { error := Some(Protocol); }
    if !charged {
      var c := Turn(reply.report, manifest, EstimateTokens(reply.text));
      ApplyNext(start, RetryCharges(manifest, Discarded(budget, replies)), c);
      usage := Apply(usage, c);
    } else {
      assert TurnCharges(budget, manifest, replies) == RetryCharges(manifest, replies);
    }
    if error.None? && usage.total > budget.maxTokens { error := Some(OverBudget); }
    if error.None? && CostExceeded(budget, pricing, usage) { error := Some(OverBudget); }
    if error.Some? { ErrorKeepsLimits(budget, output, calls, reply, error.value); }
    reply := if error.Some? then reply.(error := error) else reply;
  }

  // ---------------------------------------------------------------- compaction and verification

  function CompactionCharges(budget: Budget, world: World, step: int, usage: Usage): seq<Charge> {
    var planned := world.compaction(step);
    if planned.Some? && usage.total + planned.value.0 < budget.maxTokens then [planned.value.1] else []
  }

  /** Fold the summary call into the usage, if there is one and the token budget has room for it. */
  method Compact(budget: Budget, world: World, step: int, start: Usage) returns (usage: Usage)
    ensures usage == ApplyAll(start, CompactionCharges(budget, world, step, start))
  {
    usage := start;
    var planned := world.compaction(step);
    if planned.Some? && usage.total + planned.value.0 < budget.maxTokens {
      ApplyNext(start, [], planned.value.1);
      assert [] + [planned.value.1] == [planned.value.1];
      usage := Apply(usage, planned.value.1);
    }
  }

  function JudgementCharges(judgement: Judgement): seq<Charge> {
    if judgement.verdict.NoPolicy? then [] else judgement.charges
  }

  /** What a verification decides once it is paid for; nothing means another round. */
  function Judged(budget: Budget, pricing: Pricing, verdict: Verdict, after: Usage): Option<Status> {
    if verdict.NoPolicy? then Some(Completed)
    else if Overspent(budget, pricing, after) then Some(Failed)
    else match verdict
         case TryAgain => None
         case AskHuman => Some(NeedsHuman)
         case Stop => Some(Failed)
         case _ => Some(Completed)
  }

  /** Verification of a candidate output: it is charged first, and only then looked at. */
  method Judge(budget: Budget, pricing: Pricing, judgement: Judgement, start: Usage) returns (decision: Option<Status>, usage: Usage)
    ensures usage == ApplyAll(start, JudgementCharges(judgement)) && decision == Judged(budget, pricing, judgement.verdict, usage)
  {
    usage := start;
    if judgement.verdict.NoPolicy? { return Some(Completed), usage; }
    for i := 0 to |judgement.charges|
      invariant usage == ApplyAll(start, judgement.charges[..i])
    {
      ApplyNext(start, judgement.charges[..i], judgement.charges[i]);
      assert judgement.charges[..i] + [judgement.charges[i]] == judgement.charges[..i + 1];
      usage := Apply(usage, judgement.charges[i]);
    }
    assert judgement.charges[..|judgement.charges|] == judgement.charges;
    if Overspent(budget, pricing, usage) { return Some(Failed), usage; }
    match judgement.verdict
    case TryAgain => decision := None;
    case AskHuman => decision := Some(NeedsHuman);
    case Stop => decision := Some(Failed);
    case _ => decision := Some(Completed);
  }

  // ---------------------------------------------------------------- one round

  /** A round of the loop on record: what it began with, the replies of its provider calls, and the
      charges of its verification. */
  datatype Round = Round(step: int, before: Usage, output: int, calls: nat, replies: seq<Reply>, verified: seq<Charge>)

  /** The state that the loop carries from round to round. */
  datatype Progress = Progress(usage: Usage, step: int, output: int, calls: nat, providerCalls: nat)

  function Compacted(budget: Budget, world: World, r: Round): Usage {
    ApplyAll(r.before, CompactionCharges(budget, world, r.step, r.before))
  }

  function Spent(budget: Budget, world: World, r: Round): Usage {
    match world.planned(r.step)
    case None => Compacted(budget, world, r)
    case Some(manifest) => ApplyAll(Compacted(budget, world, r), TurnCharges(budget, manifest, r.replies))
  }

  function RoundReply(budget: Budget, pricing: Pricing, world: World, r: Round): Reply {
    Concluded(budget, pricing, Spent(budget, world, r), r.replies)
  }

  /** What the tools of a round came to; a turn without calls stands for a final output of its own. */
  function ToolsOf(world: World, step: int, reply: Reply): ToolsOutcome {
    if reply.order != [] then world.tools(step) else FinalOutput(0, true)
  }

  /** A round gets as far as a verification: its turn had no error, and there is one final output with room. */
  predicate Verifies(budget: Budget, pricing: Pricing, world: World, r: Round) {
    var reply := RoundReply(budget, pricing, world, r);
    var outcome := ToolsOf(world, r.step, reply);
    world.planned(r.step).Some? && reply.error.None? && outcome.FinalOutput? && outcome.unique
    && outcome.length <= budget.maxOutput - (r.output + reply.text)
  }

  function JudgementOf(budget: Budget, pricing: Pricing, world: World, r: Round): Judgement {
    world.judgement(r.step, RoundReply(budget, pricing, world, r).order != [])
  }

  /** The provider was asked as often as its answers and the budget dictate. */
  ghost predicate TurnFits(budget: Budget, pricing: Pricing, world: World, r: Round, manifest: nat) {
    var start := Compacted(budget, world, r);
    && Asked(budget, pricing, world, r.step, manifest, start, r.output, r.calls, r.replies)
    && (ShutOut(budget, r.replies) ==>
          !MayAsk(budget, pricing, ApplyAll(start, RetryCharges(manifest, Discarded(budget, r.replies))), manifest))
  }

  /** Exactly what the outside world dictates about a round. */
  ghost predicate RoundFits(budget: Budget, pricing: Pricing, world: World, r: Round) {
    && (if world.planned(r.step).Some? then TurnFits(budget, pricing, world, r, world.planned(r.step).value) else r.replies == [])
    && r.verified == if Verifies(budget, pricing, world, r) then JudgementCharges(JudgementOf(budget, pricing, world, r)) else []
  }

  /** Everything a round is charged, in order: the summary call, each provider call, the verification. */
  function RoundCharges(budget: Budget, world: World, r: Round): seq<Charge> {
    CompactionCharges(budget, world, r.step, r.before)
    + (if world.planned(r.step).Some? then TurnCharges(budget, world.planned(r.step).value, r.replies) else [])
    + r.verified
  }

  /** How a round ends the run, if it does. */
  function RoundEnds(budget: Budget, pricing: Pricing, world: World, r: Round): Option<Status> {
    var reply := RoundReply(budget, pricing, world, r);
    if world.planned(r.step).None? then Some(Failed)
    else if reply.error.Some? then Some(if reply.error.value.Stopped? then Interrupted else Failed)
    else match ToolsOf(world, r.step, reply)
         case Unclear => Some(NeedsHuman)
         case Pausing(alone) => Some(if alone then Paused else Failed)
         case FinalOutput(length, unique) =>
           if Verifies(budget, pricing, world, r)
           then Judged(budget, pricing, JudgementOf(budget, pricing, world, r).verdict,
                       ApplyAll(r.before, RoundCharges(budget, world, r)))
           else Some(Failed)
         case GoOn => if r.output + reply.text > budget.maxOutput then Some(Failed) else None
  }

  /** What a round hands on.  An output that verification sends back is forgotten. */
  function RoundAfter(budget: Budget, pricing: Pricing, world: World, r: Round, providerCalls: nat): Progress {
    var reply := RoundReply(budget, pricing, world, r);
    var usage := ApplyAll(r.before, RoundCharges(budget, world, r));
    if world.planned(r.step).None? then Progress(usage, r.step, r.output, r.calls, providerCalls)
    else
      var calls, asked := r.calls + |reply.order|, providerCalls + |r.replies|;
      if reply.error.Some? then Progress(usage, r.step, r.output + reply.text, calls, asked)
      else if Verifies(budget, pricing, world, r) then
        var judged := RoundEnds(budget, pricing, world, r);
        var whole := r.output + reply.text + ToolsOf(world, r.step, reply).length;
        Progress(usage, r.step + 1, if judged.None? then 0 else whole, calls, asked)
      else Progress(usage, r.step + 1, r.output + reply.text, calls, asked)
  }

  lemma ChargesInOrder(budget: Budget, world: World, r: Round)
    ensures ApplyAll(r.before, RoundCharges(budget, world, r)) == ApplyAll(Spent(budget, world, r), r.verified)
  {
    hide ApplyAll, TurnCharges, CompactionCharges;
    var compaction := CompactionCharges(budget, world, r.step, r.before);
    if world.planned(r.step).Some? {
      var turn := TurnCharges(budget, world.planned(r.step).value, r.replies);
      ApplyMore(r.before, compaction, turn);
      ApplyMore(r.before, compaction + turn, r.verified);
    } else {
      assert compaction + [] == compaction;
      ApplyMore(r.before, compaction, r.verified);
    }
  }

  /** One round of the loop. */
  method TakeRound(budget: Budget, pricing: Pricing, world: World, p: Progress)
    returns (next: Progress, ended: Option<Status>, ghost round: Round)
    ensures RoundFits(budget, pricing, world, round)
    ensures round.step == p.step && round.before == p.usage && round.output == p.output && round.calls == p.calls
    ensures ended == RoundEnds(budget, pricing, world, round)
    ensures next == RoundAfter(budget, pricing, world, round, p.providerCalls)
    ensures WithinLimits(budget, p.output, p.calls, RoundReply(budget, pricing, world, round))
  {
    hide WithinLimits, Asked, MayAsk, ApplyAll, Cost, RetryCharges, Concluded, TurnCharges, CompactionCharges, Judged, ShutOut, Discarded;
    var step := p.step;
    round := Round(step, p.usage, p.output, p.calls, [], []);
    var compacted := Compact(budget, world, step, p.usage);
    next := p.(usage := compacted);
    var manifest := world.planned(step);
    if manifest.None? {
      ChargesInOrder(budget, world, round);
      NothingApplied(compacted);
      NobodyReplied(budget, pricing, world, round, p.output, p.calls);
      return next, Some(Failed), round;
    }
    var reply, used, asked, replies := TakeTurn(budget, pricing, world, step, manifest.value, compacted, p.output, p.calls);
    round := round.(replies := replies);
    ChargesInOrder(budget, world, round);
    NothingApplied(used);
    next := Progress(used, step, p.output + reply.text, p.calls + |reply.order|, p.providerCalls + asked);
    if reply.error.Some? { return next, Some(if reply.error.value.Stopped? then Interrupted else Failed), round; }
    next := next.(step := step + 1);
    var outcome := if reply.order != [] then world.tools(step) else FinalOutput(0, true);
    match outcome
    case Unclear => ended := Some(NeedsHuman);
    case Pausing(alone) => ended := Some(if alone then Paused else Failed);
    case FinalOutput(length, unique) =>
      if !unique || length > budget.maxOutput - next.output { return next, Some(Failed), round; }
      var judgement := world.judgement(step, reply.order != []);
      var decision, judged := Judge(budget, pricing, judgement, used);
      round := round.(verified := JudgementCharges(judgement));
      ChargesInOrder(budget, world, round);
      ended := decision;
      next := next.(usage := judged, output := if decision.None? then 0 else next.output + length);
    case GoOn => ended := if next.output > budget.maxOutput then Some(Failed) else None;
  }

  lemma NothingApplied(usage: Usage)
    ensures ApplyAll(usage, []) == usage
  {
  }

  lemma NobodyReplied(budget: Budget, pricing: Pricing, world: World, r: Round, output: int, calls: nat)
    requires r.replies == []
    ensures WithinLimits(budget, output, calls, RoundReply(budget, pricing, world, r))
  {
  }

  // ---------------------------------------------------------------- the whole loop

  predicate Begins(r: Round, p: Progress) {
    r.step == p.step && r.before == p.usage && r.output == p.output && r.calls == p.calls
  }

  /** Where the rounds lead. */
  function After(budget: Budget, pricing: Pricing, world: World, start: Progress, rounds: seq<Round>): Progress {
    if rounds == [] then start
    else
      var n := |rounds| - 1;
      RoundAfter(budget, pricing, world, rounds[n], After(budget, pricing, world, start, rounds[..n]).providerCalls)
  }

  /** The loop takes another round. */
  predicate GoesOn(budget: Budget, pricing: Pricing, world: World, p: Progress) {
    !world.stopped(p.step) && MayBegin(budget, pricing, p.usage, p.step, p.output) && !world.late(p.step)
  }

  /** The rounds of a run: each begins where the one before it led, was allowed to begin, fits the
      outside world, and only the last may end the run. */
  ghost predicate History(budget: Budget, pricing: Pricing, world: World, start: Progress, rounds: seq<Round>) {
    rounds == []
    || (var n := |rounds| - 1;
        var p := After(budget, pricing, world, start, rounds[..n]);
        && History(budget, pricing, world, start, rounds[..n])
        && Begins(rounds[n], p) && GoesOn(budget, pricing, world, p) && RoundFits(budget, pricing, world, rounds[n])
        && (n > 0 ==> RoundEnds(budget, pricing, world, rounds[n - 1]).None?))
  }

  /** Everything a run is charged, in order. */
  function Invoice(budget: Budget, world: World, rounds: seq<Round>): seq<Charge> {
    if rounds == [] then []
    else Invoice(budget, world, rounds[..|rounds| - 1]) + RoundCharges(budget, world, rounds[|rounds| - 1])
  }

  function ProviderCalls(rounds: seq<Round>): nat {
    if rounds == [] then 0 else ProviderCalls(rounds[..|rounds| - 1]) + |rounds[|rounds| - 1].replies|
  }

  /** What the rounds lead to is paid for by their charges, and every provider call is counted. */
  lemma {:induction false} AfterIsInvoiced(budget: Budget, pricing: Pricing, world: World, start: Progress, rounds: seq<Round>)
    requires History(budget, pricing, world, start, rounds)
    ensures After(budget, pricing, world, start, rounds).usage == ApplyAll(start.usage, Invoice(budget, world, rounds))
    ensures After(budget, pricing, world, start, rounds).providerCalls == start.providerCalls + ProviderCalls(rounds)
  {
    hide RoundCharges, ApplyAll, RoundFits, RoundEnds, Verifies, RoundReply, GoesOn;
    NothingApplied(start.usage);
    if rounds != [] {
      var n := |rounds| - 1;
      AfterIsInvoiced(budget, pricing, world, start, rounds[..n]);
      ApplyMore(start.usage, Invoice(budget, world, rounds[..n]), RoundCharges(budget, world, rounds[n]));
      if world.planned(rounds[n].step).None? { assert rounds[n].replies == [] by { UnplannedIsSilent(budget, pricing, world, rounds[n]); } }
    }
  }

  lemma UnplannedIsSilent(budget: Budget, pricing: Pricing, world: World, r: Round)
    requires RoundFits(budget, pricing, world, r) && world.planned(r.step).None?
    ensures r.replies == []
  {
  }

  /** Round by round the step grows by one, so that no provider stream is read twice. */
  lemma {:induction false} StepsCount(budget: Budget, pricing: Pricing, world: World, start: Progress, rounds: seq<Round>, i: nat)
    requires History(budget, pricing, world, start, rounds) && i < |rounds|
    ensures rounds[i].step == start.step + i
  {
    hide RoundAfter, RoundEnds, RoundFits, GoesOn;
    var n := |rounds| - 1;
    if i < n {
      StepsCount(budget, pricing, world, start, rounds[..n], i);
    } else if n > 0 {
      StepsCount(budget, pricing, world, start, rounds[..n], n - 1);
      assert rounds[..n][n - 1] == rounds[n - 1] && rounds[..n][..n - 1] == rounds[..n - 1];
      NextStep(budget, pricing, world, rounds[n - 1], After(budget, pricing, world, start, rounds[..n - 1]).providerCalls);
    }
  }

  lemma NextStep(budget: Budget, pricing: Pricing, world: World, r: Round, providerCalls: nat)
    requires RoundEnds(budget, pricing, world, r).None?
    ensures RoundAfter(budget, pricing, world, r, providerCalls).step == r.step + 1
  {
    hide RoundReply, RoundCharges, ApplyAll, Judged;
  }

  /** What a completed run guarantees, whatever the provider reported or streamed. */
  lemma CompletedIsHonoured(budget: Budget, pricing: Pricing, world: World, r: Round, providerCalls: nat)
    requires RoundFits(budget, pricing, world, r) && RoundEnds(budget, pricing, world, r) == Some(Completed)
    requires MayBegin(budget, pricing, r.before, r.step, r.output)
    requires WithinLimits(budget, r.output, r.calls, RoundReply(budget, pricing, world, r))
    ensures Within(budget, pricing, RoundAfter(budget, pricing, world, r, providerCalls))
  {
    hide RoundCharges, ApplyAll, Asked, Cost, TurnFits, ShutOut, NoRepeats;
    ChargesInOrder(budget, world, r);
    NothingApplied(Spent(budget, world, r));
    KnownAlike(r.before, ApplyAll(r.before, RoundCharges(budget, world, r)), pricing);
  }

  lemma NoHistory(budget: Budget, pricing: Pricing, world: World, start: Progress)
    ensures History(budget, pricing, world, start, []) && After(budget, pricing, world, start, []) == start
  {
  }

  lemma HistoryNext(budget: Budget, pricing: Pricing, world: World, start: Progress, rounds: seq<Round>, r: Round)
    requires History(budget, pricing, world, start, rounds) && RoundFits(budget, pricing, world, r)
    requires var p := After(budget, pricing, world, start, rounds); Begins(r, p) && GoesOn(budget, pricing, world, p)
    requires rounds != [] ==> RoundEnds(budget, pricing, world, rounds[|rounds| - 1]).None?
    ensures History(budget, pricing, world, start, rounds + [r])
    ensures After(budget, pricing, world, start, rounds + [r])
         == RoundAfter(budget, pricing, world, r, After(budget, pricing, world, start, rounds).providerCalls)
  {
    hide RoundFits, RoundEnds, RoundAfter, GoesOn;
    assert (rounds + [r])[..|rounds|] == rounds;
  }

  lemma WithinIsHonoured(budget: Budget, pricing: Pricing, p: Progress, callsBefore: nat)
    requires Within(budget, pricing, p) && p.calls <= AllCalls(budget.maxCalls, callsBefore)
    ensures Honoured(budget, pricing, Ending(Completed, p.usage, p.step, p.output, p.calls, p.providerCalls), callsBefore)
  {
  }

  // ---------------------------------------------------------------- how a run ends

  /** The verification of a round, when it got that far, and whether it can be paid for. */
  predicate Verdicts(budget: Budget, pricing: Pricing, world: World, r: Round, verdict: Verdict) {
    Verifies(budget, pricing, world, r) && JudgementOf(budget, pricing, world, r).verdict == verdict
  }

  predicate Affords(budget: Budget, pricing: Pricing, world: World, r: Round) {
    !Overspent(budget, pricing, ApplyAll(r.before, RoundCharges(budget, world, r)))
  }

  /** The turn of a round went well, and its tools came to this. */
  predicate CameTo(budget: Budget, pricing: Pricing, world: World, r: Round, outcome: ToolsOutcome) {
    var reply := RoundReply(budget, pricing, world, r);
    world.planned(r.step).Some? && reply.error.None? && ToolsOf(world, r.step, reply) == outcome
  }

  predicate AllGood(budget: Budget, pricing: Pricing, world: World, r: Round) {
    Verdicts(budget, pricing, world, r, NoPolicy)
    || (Verdicts(budget, pricing, world, r, Accepted) && Affords(budget, pricing, world, r))
  }

  predicate AsksHuman(budget: Budget, pricing: Pricing, world: World, r: Round) {
    CameTo(budget, pricing, world, r, Unclear)
    || (Verdicts(budget, pricing, world, r, AskHuman) && Affords(budget, pricing, world, r))
  }

  predicate WasStopped(budget: Budget, pricing: Pricing, world: World, r: Round) {
    world.planned(r.step).Some? && RoundReply(budget, pricing, world, r).error == Some(Stopped)
  }

  /** What lets a run go on after a round: tools without a final output, while the output is within its
      cap, or a verification that wants another try and can be paid for. */
  predicate WantsMore(budget: Budget, pricing: Pricing, world: World, r: Round) {
    || (CameTo(budget, pricing, world, r, GoOn) && r.output + RoundReply(budget, pricing, world, r).text <= budget.maxOutput)
    || (Verdicts(budget, pricing, world, r, TryAgain) && Affords(budget, pricing, world, r))
  }

  /** How the last round decides the status of a run: each outcome in exactly one case, and failure in
      every other, as for a verification that says stop or one that cannot be paid for. */
  predicate Heeds(budget: Budget, pricing: Pricing, world: World, r: Round, status: Status) {
    && (status.Completed? <==> AllGood(budget, pricing, world, r))
    && (status.NeedsHuman? <==> AsksHuman(budget, pricing, world, r))
    && (status.Paused? <==> CameTo(budget, pricing, world, r, Pausing(true)))
    && (status.Interrupted? <==> WasStopped(budget, pricing, world, r))
    && (Verdicts(budget, pricing, world, r, Stop) ==> status.Failed?)
    && (CameTo(budget, pricing, world, r, Pausing(false)) ==> status.Failed?)
  }

  /** One of the caps is reached, or the cost is not known. */
  predicate CapReached(budget: Budget, pricing: Pricing, e: Ending) {
    || e.step >= budget.maxSteps || e.usage.total >= budget.maxTokens || e.output >= budget.maxOutput
    || (budget.maxCost.Some? && (Cost(e.usage, pricing).None? || Cost(e.usage, pricing).value >= budget.maxCost.value))
  }

  /** A run ends as its last round decides, unless that wants more: then something stopped it, it was
      late, or a cap is reached. */
  ghost predicate EndsRightly(budget: Budget, pricing: Pricing, world: World, rounds: seq<Round>, e: Ending) {
    && (forall i :: 0 <= i < |rounds| - 1 ==> WantsMore(budget, pricing, world, rounds[i]))
    && if rounds != [] && !WantsMore(budget, pricing, world, rounds[|rounds| - 1])
       then Heeds(budget, pricing, world, rounds[|rounds| - 1], e.status)
       else if world.stopped(e.step) then e.status.Interrupted?
       else e.status.Failed? && (world.late(e.step) || CapReached(budget, pricing, e))
  }

  lemma RoundDecides(budget: Budget, pricing: Pricing, world: World, r: Round)
    ensures RoundEnds(budget, pricing, world, r).None? <==> WantsMore(budget, pricing, world, r)
    ensures RoundEnds(budget, pricing, world, r).Some? ==> Heeds(budget, pricing, world, r, RoundEnds(budget, pricing, world, r).value)
  {
    hide RoundReply, RoundCharges, ApplyAll, Overspent;
  }

  lemma {:induction false} EarlierWantMore(budget: Budget, pricing: Pricing, world: World, start: Progress, rounds: seq<Round>, i: nat)
    requires History(budget, pricing, world, start, rounds) && i < |rounds| - 1
    ensures WantsMore(budget, pricing, world, rounds[i])
  {
    hide RoundAfter, RoundEnds, RoundFits, GoesOn, After, WantsMore, Heeds;
    var n := |rounds| - 1;
    if i < n - 1 {
      EarlierWantMore(budget, pricing, world, start, rounds[..n], i);
    } else {
      RoundDecides(budget, pricing, world, rounds[i]);
    }
  }

  lemma StoppedByCap(budget: Budget, pricing: Pricing, world: World, e: Ending)
    requires !GoesOn(budget, pricing, world, Progress(e.usage, e.step, e.output, e.calls, e.providerCalls))
    ensures world.stopped(e.step) || world.late(e.step) || CapReached(budget, pricing, e)
  {
    hide Cost;
  }

  lemma EndingIsRight(budget: Budget, pricing: Pricing, world: World, start: Progress, rounds: seq<Round>, e: Ending)
    requires History(budget, pricing, world, start, rounds)
    requires if rounds != [] && RoundEnds(budget, pricing, world, rounds[|rounds| - 1]).Some?
             then e.status == RoundEnds(budget, pricing, world, rounds[|rounds| - 1]).value
             else !GoesOn(budget, pricing, world, Progress(e.usage, e.step, e.output, e.calls, e.providerCalls))
                  && e.status == if world.stopped(e.step) then Interrupted else Failed
    ensures EndsRightly(budget, pricing, world, rounds, e)
  {
    hide History, RoundEnds, GoesOn, WantsMore, Heeds, CapReached;
    forall i | 0 <= i < |rounds| - 1 ensures WantsMore(budget, pricing, world, rounds[i]) {
      EarlierWantMore(budget, pricing, world, start, rounds, i);
    }
    if rounds != [] { RoundDecides(budget, pricing, world, rounds[|rounds| - 1]); }
    if rounds == [] || RoundEnds(budget, pricing, world, rounds[|rounds| - 1]).None? { StoppedByCap(budget, pricing, world, e); }
  }

  /** The loop of a run.  Every round returns or takes exactly one step, so it ends; the provider is
      asked at most once per retry and remaining step; what is paid is exactly what the rounds dictate;
      and a run that ends as completed is within all of its caps, whatever the provider streamed and
      reported. */
  method Loop(budget: Budget, pricing: Pricing, world: World, start: int, usage: Usage, callsBefore: nat)
    returns (e: Ending, ghost rounds: seq<Round>)
    ensures var first := Progress(usage, start, 0, callsBefore, 0);
            && History(budget, pricing, world, first, rounds)
            && After(budget, pricing, world, first, rounds) == Progress(e.usage, e.step, e.output, e.calls, e.providerCalls)
    ensures e.usage == ApplyAll(usage, Invoice(budget, world, rounds)) && e.providerCalls == ProviderCalls(rounds)
    ensures if rounds != [] && RoundEnds(budget, pricing, world, rounds[|rounds| - 1]).Some?
            then e.status == RoundEnds(budget, pricing, world, rounds[|rounds| - 1]).value
            else !GoesOn(budget, pricing, world, Progress(e.usage, e.step, e.output, e.calls, e.providerCalls))
                 && e.status == if world.stopped(e.step) then Interrupted else Failed
    ensures EndsRightly(budget, pricing, world, rounds, e)
    ensures e.providerCalls <= (if budget.maxSteps > start then budget.maxSteps - start else 0) * (1 + budget.maxRetries)
    ensures e.status.Completed? ==> Honoured(budget, pricing, e, callsBefore)
    ensures e.calls <= AllCalls(budget.maxCalls, callsBefore)
    ensures start <= e.step && (e.step <= budget.maxSteps || e.step == start)
  {
    hide ApplyAll, Apply, Cost, RoundFits, RoundEnds, RoundCharges, RoundReply, Verifies, WithinLimits, Within, Honoured, MayBegin, RoundAfter,
      History, After, Invoice, ProviderCalls, EndsRightly, GoesOn;
    ghost var first := Progress(usage, start, 0, callsBefore, 0);
    var p := Progress(usage, start, 0, callsBefore, 0);
    rounds := [];
    NoHistory(budget, pricing, world, first);
    while true
      invariant History(budget, pricing, world, first, rounds) && After(budget, pricing, world, first, rounds) == p
      invariant rounds != [] ==> RoundEnds(budget, pricing, world, rounds[|rounds| - 1]).None?
      invariant callsBefore <= p.calls <= AllCalls(budget.maxCalls, callsBefore)
      invariant start <= p.step && (p.step <= budget.maxSteps || p.step == start)
      decreases budget.maxSteps - p.step
    {
      MayGoOn(budget, pricing, world, p);
      if world.stopped(p.step) {
        e := Ending(Interrupted, p.usage, p.step, p.output, p.calls, p.providerCalls);
        break;
      }
      if !MayBegin(budget, pricing, p.usage, p.step, p.output) || world.late(p.step) {
        e := Ending(Failed, p.usage, p.step, p.output, p.calls, p.providerCalls);
        break;
      }
      MayGoOn(budget, pricing, world, p);
      ghost var before := p;
      var ended;
      ghost var round;
      p, ended, round := TakeRound(budget, pricing, world, p);
      HistoryNext(budget, pricing, world, first, rounds, round);
      rounds := rounds + [round];
      RoundIsBounded(budget, pricing, world, round, before.providerCalls);
      if ended.Some? {
        e := Ending(ended.value, p.usage, p.step, p.output, p.calls, p.providerCalls);
        if ended.value.Completed? {
          CompletedIsHonoured(budget, pricing, world, round, before.providerCalls);
          WithinIsHonoured(budget, pricing, p, callsBefore);
        }
        break;
      }
      NextStep(budget, pricing, world, round, before.providerCalls);
    }
    AfterIsInvoiced(budget, pricing, world, first, rounds);
    CallsAreBounded(budget, pricing, world, first, rounds);
    EndingIsRight(budget, pricing, world, first, rounds, e);
  }

  lemma MayGoOn(budget: Budget, pricing: Pricing, world: World, p: Progress)
    ensures GoesOn(budget, pricing, world, p)
       <==> !world.stopped(p.step) && MayBegin(budget, pricing, p.usage, p.step, p.output) && !world.late(p.step)
  {
  }

  /** One round asks at most once more than there are retries, and takes no call too many. */
  lemma RoundIsBounded(budget: Budget, pricing: Pricing, world: World, r: Round, providerCalls: nat)
    requires RoundFits(budget, pricing, world, r) && MayBegin(budget, pricing, r.before, r.step, r.output)
    requires WithinLimits(budget, r.output, r.calls, RoundReply(budget, pricing, world, r))
    ensures var q := RoundAfter(budget, pricing, world, r, providerCalls);
            && r.step <= q.step <= r.step + 1 <= budget.maxSteps && q.providerCalls <= providerCalls + 1 + budget.maxRetries
            && r.calls <= q.calls <= AllCalls(budget.maxCalls, r.calls)
  {
    hide RoundCharges, ApplyAll, Cost, RoundReply, NoRepeats;
  }

  lemma Distribute(a: int, b: int, c: int)
    ensures a * c + b * c == (a + b) * c
  {
  }

  lemma {:induction false} CallsPerRound(budget: Budget, pricing: Pricing, world: World, start: Progress, rounds: seq<Round>)
    requires History(budget, pricing, world, start, rounds)
    ensures ProviderCalls(rounds) <= |rounds| * (1 + budget.maxRetries)
  {
    hide RoundAfter, RoundEnds, GoesOn, RoundFits, After;
    if rounds != [] {
      var n := |rounds| - 1;
      CallsPerRound(budget, pricing, world, start, rounds[..n]);
      RepliesAreBounded(budget, pricing, world, rounds[n]);
      Distribute(n, 1, 1 + budget.maxRetries);
    }
  }

  lemma RepliesAreBounded(budget: Budget, pricing: Pricing, world: World, r: Round)
    requires RoundFits(budget, pricing, world, r)
    ensures |r.replies| <= 1 + budget.maxRetries
  {
    hide Compacted, ApplyAll, MayAsk, Consumed, RoundReply, RetryCharges, Verifies;
  }

  lemma RoundsAreBounded(budget: Budget, pricing: Pricing, world: World, start: Progress, rounds: seq<Round>)
    requires History(budget, pricing, world, start, rounds)
    ensures |rounds| <= if budget.maxSteps > start.step then budget.maxSteps - start.step else 0
  {
    if rounds != [] {
      StepsCount(budget, pricing, world, start, rounds, |rounds| - 1);
      hide After, RoundFits, RoundEnds, Affordable, Cost;
    }
  }

  lemma More(a: nat, b: nat, c: nat)
    requires a <= b
    ensures a * c <= b * c
  {
  }

  lemma CallsAreBounded(budget: Budget, pricing: Pricing, world: World, start: Progress, rounds: seq<Round>)
    requires History(budget, pricing, world, start, rounds)
    ensures ProviderCalls(rounds) <= (if budget.maxSteps > start.step then budget.maxSteps - start.step else 0) * (1 + budget.maxRetries)
  {
    hide History;
    CallsPerRound(budget, pricing, world, start, rounds);
    RoundsAreBounded(budget, pricing, world, start, rounds);
    More(|rounds|, if budget.maxSteps > start.step then budget.maxSteps - start.step else 0, 1 + budget.maxRetries);
  }
}
