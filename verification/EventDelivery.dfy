/** Delivering the event log to a browser: a server connection that replays the log from a cursor and
    then follows a live queue, and a client that reconnects from the last event it accepted. */
module EventDelivery {
  import opened Common

  const PAGE: nat := 200
  const BUFFER: nat := 1000

  /** A committed event; only some types are subscribed to by the client. */
  datatype Event = Event(seqNo: nat, subscribed: bool, payload: string)

  /** Where a server connection stands: before its subscription, about to read a page of the backlog,
      sending one, following the queue, or sending what a poll found. */
  datatype Mode =
    | Requested
    | Reading
    | Sending(page: seq<Event>, full: bool)
    | Live
    | Polling(page: seq<Event>)

  /** `queued` counts the events of the log that were taken from the queue, or fanned out before the
      subscription; `wire` holds what was sent and did not arrive yet. */
  datatype Connection = Connection(start: nat, cursor: nat, mode: Mode, queued: nat, emitted: seq<Event>, wire: seq<Event>)

  /** `base` is the cursor from which the client follows the log; the client itself never reads it. */
  datatype Client = Client(last: nat, base: nat, accepted: seq<Event>, buffer: seq<Event>)

  /** `fanned` counts the events of the log that were handed to the subscribers, in commit order. */
  datatype State = State(log: seq<Event>, fanned: nat, connection: Option<Connection>, client: Client)

  datatype Action =
    | Commit(event: Event)
    | FanOut
    | Connect
    | Subscribe
    | ReadPage
    | SendRow
    | TakeFromQueue
    | Poll
    | Deliver
    | Disconnect

  function LastSeq(log: seq<Event>): nat {
    if log == [] then 0 else log[|log| - 1].seqNo
  }

  /** The events above one cursor and up to another. */
  function Between(log: seq<Event>, low: nat, high: nat): (r: seq<Event>)
    ensures forall e :: e in r ==> e in log && low < e.seqNo <= high
  {
    if log == [] then []
    else
      var before, e := Between(log[..|log| - 1], low, high), log[|log| - 1];
      if low < e.seqNo <= high then before + [e] else before
  }

  /** The events above a cursor. */
  function Above(log: seq<Event>, cursor: nat): seq<Event> {
    if log == [] then []
    else
      var before, e := Above(log[..|log| - 1], cursor), log[|log| - 1];
      if e.seqNo > cursor then before + [e] else before
  }

  function Page(log: seq<Event>, cursor: nat): seq<Event> {
    var rest := Above(log, cursor);
    if |rest| > PAGE then rest[..PAGE] else rest
  }

  function Subscribed(events: seq<Event>): seq<Event> {
    if events == [] then []
    else
      var before, e := Subscribed(events[..|events| - 1]), events[|events| - 1];
      if e.subscribed then before + [e] else before
  }

  function Newest(events: seq<Event>): seq<Event> {
    if |events| > BUFFER then events[|events| - BUFFER..] else events
  }

  // ---------------------------------------------------------------- steps

  function Start(after: nat): State {
    State([], 0, None, Client(after, after, [], []))
  }

  predicate HasMode(s: State, mode: Mode) {
    s.connection.Some? && s.connection.value.mode == mode
  }

  predicate SendsRow(c: Connection) {
    match c.mode
    case Sending(page, _) => page != []
    case Polling(page) => page != []
    case _ => false
  }

  predicate Enabled(s: State, a: Action) {
    match a
    case Commit(event) => event.seqNo > LastSeq(s.log)
    case FanOut => s.fanned < |s.log|
    case Connect => s.connection.None?
    case Subscribe => HasMode(s, Requested)
    case ReadPage => HasMode(s, Reading)
    case SendRow => s.connection.Some? && SendsRow(s.connection.value)
    case TakeFromQueue => HasMode(s, Live) && s.connection.value.queued < s.fanned && s.fanned <= |s.log|
    case Poll => HasMode(s, Live)
    case Deliver => s.connection.Some? && s.connection.value.wire != []
    case Disconnect => s.connection.Some?
  }

  /** After the last row of a page: the next page if this one was full, and live otherwise. */
  function Advance(mode: Mode): Mode {
    match mode
    case Sending(page, full) => if page != [] then mode else if full then Reading else Live
    case Polling(page) => if page != [] then mode else Live
    case _ => mode
  }

  function Emit(c: Connection, e: Event): Connection {
    c.(cursor := if e.seqNo > c.cursor then e.seqNo else c.cursor, emitted := c.emitted + [e], wire := c.wire + [e])
  }

  function SendRowStep(c: Connection): Connection
    requires SendsRow(c)
  {
    Emit(c, c.mode.page[0]).(mode := Advance(if c.mode.Sending? then Sending(c.mode.page[1..], c.mode.full)
                                             else Polling(c.mode.page[1..])))
  }

  function TakeStep(c: Connection, e: Event): Connection {
    var taken := c.(queued := c.queued + 1);
    if e.seqNo <= c.cursor then taken else Emit(taken, e)
  }

  /** The client ignores types it did not subscribe to, and anything it has seen already. */
  function Received(client: Client, e: Event): Client {
    if !e.subscribed || e.seqNo <= client.last then client
    else client.(last := e.seqNo, accepted := client.accepted + [e], buffer := Newest(client.buffer + [e]))
  }

  /** The variables of the browser hook: the last sequence number and the bounded buffer. */
  class LiveClient {
    var last: nat
    var buffer: seq<Event>
    ghost var base: nat
    ghost var accepted: seq<Event>

    constructor (after: nat)
      ensures View() == Client(after, after, [], [])
    {
      last, buffer := after, [];
      base, accepted := after, [];
    }

    ghost function View(): Client
      reads this
    {
      Client(last, base, accepted, buffer)
    }

    method Receive(e: Event)
      modifies this
      ensures View() == Received(old(View()), e)
    {
      if !e.subscribed || e.seqNo <= last { return; }
      last := e.seqNo;
      var events := buffer + [e];
      buffer := if |events| > BUFFER then events[|events| - BUFFER..] else events;
      accepted := accepted + [e];
    }
  }

  /** Without a last event, the server starts at the end of the log. */
  function ConnectStep(s: State): State {
    var start := if s.client.last > 0 then s.client.last else LastSeq(s.log);
    s.(connection := Some(Connection(start, start, Requested, 0, [], [])),
       client := if s.client.last > 0 then s.client else s.client.(base := start))
  }

  function Step(s: State, a: Action): State
    requires Enabled(s, a)
  {
    match a
    case Commit(event) => s.(log := s.log + [event])
    case FanOut => s.(fanned := s.fanned + 1)
    case Connect => ConnectStep(s)
    case Subscribe => s.(connection := Some(s.connection.value.(mode := Reading, queued := s.fanned)))
    case ReadPage =>
      var c := s.connection.value;
      var page := Page(s.log, c.cursor);
      s.(connection := Some(c.(mode := Advance(Sending(page, |page| >= PAGE)))))
    case SendRow => s.(connection := Some(SendRowStep(s.connection.value)))
    case TakeFromQueue => s.(connection := Some(TakeStep(s.connection.value, s.log[s.connection.value.queued])))
    case Poll =>
      var c := s.connection.value;
      s.(connection := Some(c.(mode := Advance(Polling(Page(s.log, c.cursor))))))
    case Deliver =>
      var c := s.connection.value;
      s.(connection := Some(c.(wire := c.wire[1..])), client := Received(s.client, c.wire[0]))
    case Disconnect => s.(connection := None)
  }

  ghost predicate IsRun(states: seq<State>, actions: seq<Action>) {
    && |states| == |actions| + 1
    && forall k {:trigger actions[k]} :: 0 <= k < |actions| ==>
         Enabled(states[k], actions[k]) && states[k + 1] == Step(states[k], actions[k])
  }

  // ---------------------------------------------------------------- reading the log

  predicate Increasing(log: seq<Event>) {
    (forall i :: 0 <= i < |log| ==> log[i].seqNo > 0) && forall i, j :: 0 <= i < j < |log| ==> log[i].seqNo < log[j].seqNo
  }

  /** How many events of the log are at or below a cursor. */
  function Passed(log: seq<Event>, cursor: nat): (n: nat)
    ensures n <= |log|
  {
    if log == [] then 0
    else if log[|log| - 1].seqNo <= cursor then |log|
    else Passed(log[..|log| - 1], cursor)
  }

  lemma {:induction false} PassedMeans(log: seq<Event>, cursor: nat)
    requires Increasing(log)
    ensures forall k :: 0 <= k < |log| ==> (log[k].seqNo <= cursor <==> k < Passed(log, cursor))
  {
    if log != [] { PassedMeans(log[..|log| - 1], cursor); }
  }

  lemma IncreasingPrefix(log: seq<Event>, cursor: nat)
    requires Increasing(log) && log != []
    ensures Increasing(log[..|log| - 1])
    ensures log[|log| - 1].seqNo <= cursor ==> Passed(log[..|log| - 1], cursor) == |log| - 1
  {
  }

  lemma SliceLonger(before: seq<Event>, e: Event, from: nat, until: nat)
    requires from <= until <= |before|
    ensures (before + [e])[from..until] == before[from..until]
    ensures (before + [e])[from..|before| + 1] == before[from..] + [e]
  {
  }

  /** The events between two cursors are a contiguous stretch of the log. */
  lemma {:induction false} BetweenIsSlice(log: seq<Event>, low: nat, high: nat)
    requires Increasing(log) && low <= high
    ensures Passed(log, low) <= Passed(log, high)
    ensures Between(log, low, high) == log[Passed(log, low)..Passed(log, high)]
  {
    hide Increasing;
    if log != [] {
      var before, e := log[..|log| - 1], log[|log| - 1];
      assert log == before + [e];
      IncreasingPrefix(log, low);
      IncreasingPrefix(log, high);
      BetweenIsSlice(before, low, high);
      SliceLonger(before, e, Passed(before, low), Passed(before, high));
      hide Between, Passed;
      BetweenLast(log, low, high);
    }
  }

  lemma BetweenLast(log: seq<Event>, low: nat, high: nat)
    requires log != []
    ensures var before, e := log[..|log| - 1], log[|log| - 1];
            && Between(log, low, high) == (if low < e.seqNo <= high then Between(before, low, high) + [e] else Between(before, low, high))
            && Passed(log, low) == (if e.seqNo <= low then |log| else Passed(before, low))
            && Passed(log, high) == (if e.seqNo <= high then |log| else Passed(before, high))
  {
  }

  lemma {:induction false} AboveIsSuffix(log: seq<Event>, cursor: nat)
    requires Increasing(log)
    ensures Above(log, cursor) == log[Passed(log, cursor)..]
  {
    hide Increasing;
    if log != [] {
      var before, e := log[..|log| - 1], log[|log| - 1];
      IncreasingPrefix(log, cursor);
      AboveIsSuffix(before, cursor);
      var from := Passed(before, cursor);
      if e.seqNo > cursor { assert log[from..] == before[from..] + [e]; }
    }
  }

  lemma {:induction false} PassedAll(log: seq<Event>, cursor: nat)
    requires forall k :: 0 <= k < |log| ==> log[k].seqNo <= cursor
    ensures Passed(log, cursor) == |log|
  {
  }

  /** The event at a position of the log is exactly what lies between its predecessor and itself. */
  lemma PassedAt(log: seq<Event>, k: nat)
    requires Increasing(log) && k < |log|
    ensures Passed(log, log[k].seqNo) == k + 1
  {
  }

  lemma {:induction false} BetweenEmpty(log: seq<Event>, low: nat, high: nat)
    requires high <= low
    ensures Between(log, low, high) == []
  {
    if log != [] { BetweenEmpty(log[..|log| - 1], low, high); }
  }

  /** What a later event cannot change: nothing above a cursor that the log has not reached is recorded. */
  predicate Settled(log: seq<Event>, low: nat, high: nat) {
    high <= low || high <= LastSeq(log)
  }

  lemma BetweenCommit(log: seq<Event>, e: Event, low: nat, high: nat)
    requires Settled(log, low, high) && e.seqNo > LastSeq(log)
    ensures Between(log + [e], low, high) == Between(log, low, high) && Settled(log + [e], low, high)
  {
  }

  lemma CommitIncreases(log: seq<Event>, e: Event)
    requires Increasing(log) && e.seqNo > LastSeq(log)
    ensures Increasing(log + [e]) && LastSeq(log + [e]) == e.seqNo
  {
  }

  /** Moving a cursor to the next event adds exactly that event. */
  lemma NextEvent(log: seq<Event>, low: nat, cursor: nat, k: nat)
    requires Increasing(log) && low <= cursor && k < |log| && k == Passed(log, cursor)
    ensures cursor < log[k].seqNo
    ensures Between(log, low, log[k].seqNo) == Between(log, low, cursor) + [log[k]]
    ensures Above(log, cursor) == [log[k]] + Above(log, log[k].seqNo)
    ensures log[k].seqNo <= LastSeq(log)
  {
    hide Between, Above, Passed;
    PassedMeans(log, cursor);
    PassedAt(log, k);
    BetweenIsSlice(log, low, cursor);
    BetweenIsSlice(log, low, log[k].seqNo);
    AboveIsSuffix(log, cursor);
    AboveIsSuffix(log, log[k].seqNo);
    assert log[k].seqNo <= log[|log| - 1].seqNo;
  }

  // ---------------------------------------------------------------- the server side

  /** The rows that are being sent are the next ones of the log. */
  predicate NextRows(log: seq<Event>, cursor: nat, page: seq<Event>) {
    page <= Above(log, cursor)
  }

  function Horizon(cursor: nat, page: seq<Event>): nat {
    if page == [] then cursor else page[|page| - 1].seqNo
  }

  /** Everything taken from the queue, or fanned out before the subscription, is not above the cursor. */
  predicate CaughtUp(log: seq<Event>, queued: nat, cursor: nat) {
    queued <= |log| && forall k :: 0 <= k < queued ==> log[k].seqNo <= cursor
  }

  predicate ModeFits(log: seq<Event>, c: Connection) {
    match c.mode
    case Requested => true
    case Reading => true
    case Sending(page, full) => NextRows(log, c.cursor, page) && (!full ==> CaughtUp(log, c.queued, Horizon(c.cursor, page)))
    case Live => CaughtUp(log, c.queued, c.cursor)
    case Polling(page) => NextRows(log, c.cursor, page) && CaughtUp(log, c.queued, c.cursor)
  }

  predicate ServerFits(log: seq<Event>, fanned: nat, c: Connection) {
    && c.start <= c.cursor && Settled(log, c.start, c.cursor)
    && c.emitted == Between(log, c.start, c.cursor)
    && c.queued <= fanned && ModeFits(log, c)
    && |c.wire| <= |c.emitted| && c.wire == c.emitted[|c.emitted| - |c.wire|..]
  }

  lemma CommitKeepsServer(log: seq<Event>, fanned: nat, c: Connection, e: Event)
    requires Increasing(log) && ServerFits(log, fanned, c) && e.seqNo > LastSeq(log)
    ensures ServerFits(log + [e], fanned, c)
  {
  }

  /** A short page reaches the end of the log. */
  lemma ReadKeepsServer(log: seq<Event>, fanned: nat, c: Connection)
    requires Increasing(log) && ServerFits(log, fanned, c) && c.mode.Reading? && fanned <= |log|
    ensures var page := Page(log, c.cursor);
            ServerFits(log, fanned, c.(mode := Advance(Sending(page, |page| >= PAGE))))
  {
    hide Between, Above;
    var page := Page(log, c.cursor);
    AboveIsSuffix(log, c.cursor);
    PassedMeans(log, c.cursor);
    if |page| < PAGE {
      assert page == log[Passed(log, c.cursor)..];
      assert CaughtUp(log, c.queued, Horizon(c.cursor, page));
    }
  }

  lemma SendKeepsServer(log: seq<Event>, fanned: nat, c: Connection)
    requires Increasing(log) && ServerFits(log, fanned, c) && SendsRow(c)
    ensures ServerFits(log, fanned, SendRowStep(c))
    ensures c.cursor < c.mode.page[0].seqNo
  {
    hide Between, Above;
    var page := c.mode.page;
    AboveIsSuffix(log, c.cursor);
    var k := Passed(log, c.cursor);
    assert page[0] == log[k];
    NextEvent(log, c.start, c.cursor, k);
    assert page[1..] <= Above(log, log[k].seqNo);
  }

  lemma TakeKeepsServer(log: seq<Event>, fanned: nat, c: Connection)
    requires Increasing(log) && ServerFits(log, fanned, c) && c.mode.Live? && c.queued < fanned <= |log|
    ensures ServerFits(log, fanned, TakeStep(c, log[c.queued]))
  {
    hide Between, Above;
    var e := log[c.queued];
    if e.seqNo > c.cursor {
      PassedMeans(log, c.cursor);
      assert c.queued > 0 ==> log[c.queued - 1].seqNo <= c.cursor;
      NextEvent(log, c.start, c.cursor, c.queued);
    }
  }

  lemma PollKeepsServer(log: seq<Event>, fanned: nat, c: Connection)
    requires ServerFits(log, fanned, c) && c.mode.Live?
    ensures ServerFits(log, fanned, c.(mode := Advance(Polling(Page(log, c.cursor)))))
  {
  }

  // ---------------------------------------------------------------- the client side

  /** Up to where the events of the connection have arrived. */
  function Arrived(c: Connection): nat
    requires |c.wire| <= |c.emitted|
  {
    var n := |c.emitted| - |c.wire|;
    if n == 0 then c.start else c.emitted[n - 1].seqNo
  }

  function Seen(client: Client): nat {
    if client.last > client.base then client.last else client.base
  }

  /** The client accepted exactly the subscribed events from its base up to the last one. */
  predicate ClientFits(log: seq<Event>, client: Client) {
    && (client.last == 0 || client.base <= client.last) && Settled(log, client.base, client.last)
    && client.accepted == Subscribed(Between(log, client.base, client.last))
    && client.buffer == Newest(client.accepted)
  }

  /** Nothing that arrived and was subscribed to is above the last event of the client. */
  predicate LinkFits(log: seq<Event>, client: Client, c: Connection) {
    && |c.wire| <= |c.emitted| && c.start <= Arrived(c) && client.base <= c.start
    && Seen(client) <= Arrived(c) && Settled(log, Seen(client), Arrived(c))
    && Subscribed(Between(log, Seen(client), Arrived(c))) == []
  }

  predicate Fits(s: State) {
    && Increasing(s.log) && s.fanned <= |s.log| && ClientFits(s.log, s.client)
    && (s.connection.Some? ==>
          ServerFits(s.log, s.fanned, s.connection.value) && LinkFits(s.log, s.client, s.connection.value))
  }

  lemma {:induction false} SubscribedConcat(a: seq<Event>, b: seq<Event>)
    ensures Subscribed(a + b) == Subscribed(a) + Subscribed(b)
  {
    if b == [] {
      assert a + b == a;
    } else {
      assert (a + b)[..|a + b| - 1] == a + b[..|b| - 1];
      SubscribedConcat(a, b[..|b| - 1]);
    }
  }

  lemma SubscribedOne(e: Event)
    ensures Subscribed([e]) == if e.subscribed then [e] else []
  {
  }

  lemma BetweenJoin(log: seq<Event>, low: nat, middle: nat, high: nat)
    requires Increasing(log) && low <= middle <= high
    ensures Between(log, low, high) == Between(log, low, middle) + Between(log, middle, high)
  {
    hide Between, Passed;
    BetweenIsSlice(log, low, middle);
    BetweenIsSlice(log, middle, high);
    BetweenIsSlice(log, low, high);
  }

  /** What was emitted stands in the log, one event after the other. */
  lemma EmittedAt(log: seq<Event>, fanned: nat, c: Connection, n: nat)
    requires Increasing(log) && ServerFits(log, fanned, c) && n < |c.emitted|
    ensures var at := Passed(log, c.start) + n;
            && at < |log| && c.emitted[n] == log[at] && Passed(log, c.emitted[n].seqNo) == at + 1
            && c.start < c.emitted[n].seqNo <= LastSeq(log)
  {
    hide Between, Passed, ModeFits;
    BetweenIsSlice(log, c.start, c.cursor);
    var at := Passed(log, c.start) + n;
    PassedAt(log, at);
    PassedMeans(log, c.start);
    assert log[at].seqNo <= log[|log| - 1].seqNo;
  }

  lemma ArrivedAt(log: seq<Event>, fanned: nat, c: Connection)
    requires Increasing(log) && ServerFits(log, fanned, c)
    ensures c.start <= Arrived(c) && Passed(log, Arrived(c)) == Passed(log, c.start) + (|c.emitted| - |c.wire|)
  {
    hide Between, Passed, ModeFits, Increasing;
    var n := |c.emitted| - |c.wire|;
    if n > 0 { EmittedAt(log, fanned, c, n - 1); }
  }

  /** The first event on the wire is the only one between what arrived and itself. */
  lemma WireIsNext(log: seq<Event>, fanned: nat, c: Connection)
    requires Increasing(log) && ServerFits(log, fanned, c) && c.wire != []
    ensures var e := c.wire[0];
            && Arrived(c) < e.seqNo <= LastSeq(log) && c.start <= Arrived(c)
            && Between(log, Arrived(c), e.seqNo) == [e] && Arrived(c.(wire := c.wire[1..])) == e.seqNo
  {
    hide Between, Passed, ModeFits, Increasing;
    var n := |c.emitted| - |c.wire|;
    EmittedAt(log, fanned, c, n);
    ArrivedAt(log, fanned, c);
    var at := Passed(log, c.start) + n;
    PassedMeans(log, Arrived(c));
    BetweenIsSlice(log, Arrived(c), c.wire[0].seqNo);
    assert log[at..at + 1] == [log[at]];
  }

  lemma DeliverKeepsServer(log: seq<Event>, fanned: nat, c: Connection)
    requires ServerFits(log, fanned, c) && c.wire != []
    ensures ServerFits(log, fanned, c.(wire := c.wire[1..]))
  {
  }

  lemma DeliverKeepsClient(log: seq<Event>, client: Client, c: Connection, e: Event)
    requires Increasing(log) && ClientFits(log, client) && LinkFits(log, client, c)
    requires Arrived(c) < e.seqNo <= LastSeq(log) && Between(log, Arrived(c), e.seqNo) == [e]
    ensures ClientFits(log, Received(client, e))
  {
    hide Between, Subscribed, Newest, Increasing;
    if e.subscribed {
      AcceptedNext(log, client, c, e);
      NewestNext(client.accepted, e);
    }
  }

  lemma DeliverKeepsLink(log: seq<Event>, client: Client, c: Connection)
    requires Increasing(log) && LinkFits(log, client, c) && c.wire != []
    requires var e := c.wire[0];
             Arrived(c) < e.seqNo <= LastSeq(log) && Between(log, Arrived(c), e.seqNo) == [e] && Arrived(c.(wire := c.wire[1..])) == e.seqNo
    ensures LinkFits(log, Received(client, c.wire[0]), c.(wire := c.wire[1..]))
  {
    hide Between, Subscribed, Newest, Increasing;
    var e := c.wire[0];
    if e.subscribed {
      BetweenEmpty(log, e.seqNo, e.seqNo);
      NoneSubscribed();
    } else {
      var early := Between(log, Seen(client), Arrived(c));
      SubscribedOne(e);
      BetweenJoin(log, Seen(client), Arrived(c), e.seqNo);
      SubscribedConcat(early, [e]);
      assert Subscribed(early) + [] == Subscribed(early);
    }
  }

  lemma DeliverFits(s: State)
    requires Fits(s) && Enabled(s, Deliver)
    ensures Fits(Step(s, Deliver))
  {
    hide ServerFits, ClientFits, Increasing;
    var c := s.connection.value;
    WireIsNext(s.log, s.fanned, c);
    DeliverKeepsServer(s.log, s.fanned, c);
    DeliverKeepsClient(s.log, s.client, c, c.wire[0]);
    DeliverKeepsLink(s.log, s.client, c);
    hide LinkFits, Received;
  }

  lemma NoneSubscribed()
    ensures Subscribed([]) == []
  {
  }

  lemma NewestNext(accepted: seq<Event>, e: Event)
    ensures Newest(Newest(accepted) + [e]) == Newest(accepted + [e])
  {
  }

  /** Accepting the first event on the wire extends what was accepted by exactly that event. */
  lemma AcceptedNext(log: seq<Event>, client: Client, c: Connection, e: Event)
    requires Increasing(log) && ClientFits(log, client) && LinkFits(log, client, c) && e.subscribed
    requires Arrived(c) < e.seqNo && Between(log, Arrived(c), e.seqNo) == [e]
    ensures Subscribed(Between(log, client.base, e.seqNo)) == client.accepted + [e]
  {
    hide Between, Subscribed, Newest, Increasing;
    var seen, at := Seen(client), Arrived(c);
    BetweenJoin(log, client.base, seen, e.seqNo);
    BetweenJoin(log, seen, at, e.seqNo);
    SubscribedOne(e);
    SubscribedConcat(Between(log, seen, at), [e]);
    SubscribedConcat(Between(log, client.base, seen), Between(log, seen, e.seqNo));
    if client.last <= client.base {
      BetweenEmpty(log, client.base, client.last);
      BetweenEmpty(log, client.base, seen);
    }
  }

  lemma ServerStepKeepsLink(log: seq<Event>, fanned: nat, client: Client, c: Connection, d: Connection)
    requires Increasing(log) && ServerFits(log, fanned, c) && LinkFits(log, client, c)
    requires d.start == c.start && |d.emitted| - |d.wire| == |c.emitted| - |c.wire| && c.emitted <= d.emitted
    ensures LinkFits(log, client, d)
  {
  }

  lemma CommitFits(s: State, e: Event)
    requires Fits(s) && Enabled(s, Commit(e))
    ensures Fits(Step(s, Commit(e)))
  {
    hide Between, Subscribed, ServerFits, Increasing;
    CommitIncreases(s.log, e);
    BetweenCommit(s.log, e, s.client.base, s.client.last);
    if s.connection.Some? {
      var c := s.connection.value;
      CommitKeepsServer(s.log, s.fanned, c, e);
      BetweenCommit(s.log, e, Seen(s.client), Arrived(c));
    }
  }

  lemma ConnectFits(s: State)
    requires Fits(s) && Enabled(s, Connect)
    ensures Fits(Step(s, Connect))
  {
    hide Between, Subscribed, Increasing;
    var t := Step(s, Connect);
    var start := t.connection.value.start;
    BetweenEmpty(s.log, start, start);
    BetweenEmpty(s.log, start, 0);
    BetweenEmpty(s.log, s.client.base, 0);
    NoneSubscribed();
  }

  lemma ServerFitsStep(s: State, a: Action)
    requires Fits(s) && Enabled(s, a)
    requires a.Subscribe? || a.ReadPage? || a.SendRow? || a.TakeFromQueue? || a.Poll?
    ensures Fits(Step(s, a))
  {
    hide Between, Subscribed, ClientFits, Increasing, Page, LinkFits;
    var c := s.connection.value;
    match a {
      case Subscribe =>
      case ReadPage => ReadKeepsServer(s.log, s.fanned, c);
      case SendRow => SendKeepsServer(s.log, s.fanned, c);
      case TakeFromQueue => TakeKeepsServer(s.log, s.fanned, c);
      case Poll => PollKeepsServer(s.log, s.fanned, c);
    }
    ServerStepKeepsLink(s.log, s.fanned, s.client, c, Step(s, a).connection.value);
  }

  lemma StepFits(s: State, a: Action)
    requires Fits(s) && Enabled(s, a)
    ensures Fits(Step(s, a))
  {
    match a {
      case Commit(e) => CommitFits(s, e);
      case FanOut => FanOutFits(s);
      case Connect => ConnectFits(s);
      case Deliver => DeliverFits(s);
      case Disconnect =>
      case _ => ServerFitsStep(s, a);
    }
  }

  lemma FanOutFits(s: State)
    requires Fits(s) && Enabled(s, FanOut)
    ensures Fits(Step(s, FanOut))
  {
  }

  lemma {:induction false} FitsThroughout(states: seq<State>, actions: seq<Action>, k: nat)
    requires IsRun(states, actions) && Fits(states[0]) && k < |states|
    ensures Fits(states[k])
    ensures states[0].client.last > 0 ==> states[k].client.last > 0 && states[k].client.base == states[0].client.base
  {
    hide Fits, Enabled;
    if k > 0 {
      FitsThroughout(states, actions, k - 1);
      StepFits(states[k - 1], actions[k - 1]);
      assert states[k - 1 + 1] == Step(states[k - 1], actions[k - 1]);
    }
  }

  lemma StartFits(after: nat)
    ensures Fits(Start(after))
  {
  }

  // ---------------------------------------------------------------- where the base stands

  /** A connection is opened for a client that has accepted nothing and has no cursor. */
  predicate StartsOver(s: State, a: Action) {
    a.Connect? && s.client.last == 0
  }

  /** Where the last such connection started, or else the cursor that the client began with. */
  function LatestStart(states: seq<State>, actions: seq<Action>, k: nat): nat
    requires k < |states| == |actions| + 1
  {
    if k == 0 then states[0].client.base
    else if StartsOver(states[k - 1], actions[k - 1]) then LastSeq(states[k - 1].log)
    else LatestStart(states, actions, k - 1)
  }

  lemma StepMovesBase(s: State, a: Action)
    requires Enabled(s, a)
    ensures Step(s, a).client.base == if StartsOver(s, a) then LastSeq(s.log) else s.client.base
    ensures s.client.last <= Step(s, a).client.last && s.log <= Step(s, a).log
    ensures Step(s, a).log != s.log ==> a.Commit? && Step(s, a).log == s.log + [a.event]
  {
    hide Page, Emit, SendRowStep, TakeStep;
  }

  /** The base moves only when a connection is opened for a client that has accepted nothing, then to
      the end of the log. */
  lemma {:induction false} BaseIsLatestStart(states: seq<State>, actions: seq<Action>, k: nat)
    requires IsRun(states, actions) && k < |states|
    ensures states[k].client.base == LatestStart(states, actions, k)
  {
    hide Enabled, Step;
    if k > 0 {
      BaseIsLatestStart(states, actions, k - 1);
      StepMovesBase(states[k - 1], actions[k - 1]);
      assert states[k - 1 + 1] == Step(states[k - 1], actions[k - 1]);
    }
  }

  /** Over every run of commits, connections and disconnects: a connection has emitted exactly the
      events of the log above its starting cursor and up to its current one, in order; the client has
      accepted exactly the subscribed events above its base and up to its last one, each once; and its
      buffer is the newest thousand of them.  The base is the starting cursor, for ever if there is one, and
      otherwise the end of the log at the last connection opened before anything was accepted. */
  lemma DeliveredExactlyOnce(after: nat, states: seq<State>, actions: seq<Action>, k: nat)
    requires IsRun(states, actions) && states[0] == Start(after) && k < |states|
    ensures var s := states[k];
            && Increasing(s.log)
            && (s.connection.Some? ==>
                  s.connection.value.emitted == Between(s.log, s.connection.value.start, s.connection.value.cursor))
            && s.client.accepted == Subscribed(Between(s.log, s.client.base, s.client.last))
            && s.client.buffer == Newest(s.client.accepted)
            && (after > 0 ==> s.client.base == after) && s.client.base == LatestStart(states, actions, k)
  {
    StartFits(after);
    FitsThroughout(states, actions, k);
    BaseIsLatestStart(states, actions, k);
    hide IsRun;
  }

  /** Nothing is outstanding: the connection follows the queue, the queue is empty, everything arrived. */
  predicate Drained(s: State) {
    HasMode(s, Live) && s.connection.value.queued == |s.log| && s.connection.value.wire == []
  }

  /** Nothing is missed either: once nothing is outstanding, every subscribed event above the base was accepted. */
  lemma NothingMissed(after: nat, states: seq<State>, actions: seq<Action>, k: nat)
    requires IsRun(states, actions) && states[0] == Start(after) && k < |states| && Drained(states[k])
    ensures var s := states[k]; s.client.accepted == Subscribed(Above(s.log, s.client.base))
  {
    StartFits(after);
    FitsThroughout(states, actions, k);
    hide IsRun;
    DrainedHoldsAll(states[k]);
  }

  lemma AllArrived(log: seq<Event>, fanned: nat, c: Connection, low: nat)
    requires Increasing(log) && ServerFits(log, fanned, c) && CaughtUp(log, |log|, c.cursor) && c.wire == []
    requires low <= Arrived(c)
    ensures Between(log, low, Arrived(c)) == Above(log, low)
  {
    hide Between, Above, ModeFits, Increasing;
    ArrivedAt(log, fanned, c);
    BetweenIsSlice(log, c.start, c.cursor);
    PassedAll(log, c.cursor);
    AboveIsSuffix(log, low);
    BetweenIsSlice(log, low, Arrived(c));
    hide Passed;
  }

  lemma AcceptedAll(log: seq<Event>, client: Client, c: Connection)
    requires Increasing(log) && ClientFits(log, client) && LinkFits(log, client, c)
    ensures client.accepted == Subscribed(Between(log, client.base, Arrived(c)))
  {
    hide Between, Subscribed, Newest, Increasing;
    var seen := Seen(client);
    BetweenJoin(log, client.base, seen, Arrived(c));
    SubscribedConcat(Between(log, client.base, seen), Between(log, seen, Arrived(c)));
    if client.last <= client.base {
      BetweenEmpty(log, client.base, client.last);
      BetweenEmpty(log, client.base, seen);
    }
    assert Subscribed(Between(log, client.base, seen)) + [] == Subscribed(Between(log, client.base, seen));
  }

  lemma DrainedHoldsAll(s: State)
    requires Fits(s) && Drained(s)
    ensures s.client.accepted == Subscribed(Above(s.log, s.client.base))
  {
    hide Between, Above, Subscribed, Newest, ModeFits, Increasing, ClientFits;
    var c := s.connection.value;
    DrainedCaughtUp(s.log, s.fanned, c);
    AllArrived(s.log, s.fanned, c, s.client.base);
    AcceptedAll(s.log, s.client, c);
  }

  lemma DrainedCaughtUp(log: seq<Event>, fanned: nat, c: Connection)
    requires ServerFits(log, fanned, c) && c.mode == Live
    ensures CaughtUp(log, c.queued, c.cursor)
  {
  }

  // ---------------------------------------------------------------- what is lost

  /** Once something was accepted, the base stays for ever. */
  lemma {:induction false} BaseStays(states: seq<State>, actions: seq<Action>, j: nat, k: nat)
    requires IsRun(states, actions) && j <= k < |states|
    requires states[j].client.last > 0 || forall i :: j <= i < k ==> !StartsOver(states[i], actions[i])
    ensures states[k].client.base == states[j].client.base && states[j].client.last <= states[k].client.last
    ensures states[j].log <= states[k].log
  {
    hide Enabled, Step;
    if k > j {
      BaseStays(states, actions, j, k - 1);
      StepMovesBase(states[k - 1], actions[k - 1]);
      assert states[k - 1 + 1] == Step(states[k - 1], actions[k - 1]);
    }
  }

  lemma {:induction false} LogGrows(states: seq<State>, actions: seq<Action>, j: nat, k: nat)
    requires IsRun(states, actions) && j <= k < |states|
    ensures states[j].log <= states[k].log && states[j].client.last <= states[k].client.last
  {
    hide Enabled, Step;
    if k > j {
      LogGrows(states, actions, j, k - 1);
      StepMovesBase(states[k - 1], actions[k - 1]);
      assert states[k - 1 + 1] == Step(states[k - 1], actions[k - 1]);
    }
  }

  lemma LongerLogEndsLater(log: seq<Event>, more: seq<Event>)
    requires Increasing(more) && log <= more
    ensures LastSeq(log) <= LastSeq(more) && (forall e :: e in log ==> e in more && e.seqNo <= LastSeq(log))
  {
    if log != [] { assert more[|log| - 1] == log[|log| - 1]; }
  }

  /** A base that was set by a connection never falls behind. */
  lemma {:induction false} BaseNeverFalls(after: nat, states: seq<State>, actions: seq<Action>, j: nat, k: nat)
    requires IsRun(states, actions) && states[0] == Start(after) && j <= k < |states|
    ensures states[j].client.base <= states[k].client.base
    ensures states[k].client.base <= after || states[k].client.base <= LastSeq(states[k].log)
  {
    hide Enabled, Step, Fits;
    StartFits(after);
    FitsThroughout(states, actions, k);
    assert Increasing(states[k].log) by { FitsIncrease(states[k]); }
    if k > 0 {
      LogGrows(states, actions, k - 1, k);
      LongerLogEndsLater(states[k - 1].log, states[k].log);
      StepMovesBase(states[k - 1], actions[k - 1]);
      assert states[k - 1 + 1] == Step(states[k - 1], actions[k - 1]);
      LogGrows(states, actions, 0, k - 1);
      BaseNeverFalls(after, states, actions, if j < k then j else k - 1, k - 1);
    }
  }

  lemma FitsIncrease(s: State)
    requires Fits(s)
    ensures Increasing(s.log)
  {
  }

  lemma {:induction false} InSubscribed(events: seq<Event>, e: Event)
    ensures e in Subscribed(events) <==> e in events && e.subscribed
  {
    if events != [] { InSubscribed(events[..|events| - 1], e); }
  }

  lemma {:induction false} InAbove(log: seq<Event>, cursor: nat, e: Event)
    ensures e in Above(log, cursor) <==> e in log && e.seqNo > cursor
  {
    if log != [] { InAbove(log[..|log| - 1], cursor, e); }
  }

  /** The base says what is lost: nothing at or below it is ever accepted. */
  lemma AcceptedAreAboveBase(after: nat, states: seq<State>, actions: seq<Action>, k: nat, e: Event)
    requires IsRun(states, actions) && states[0] == Start(after) && k < |states| && e in states[k].client.accepted
    ensures e.seqNo > states[k].client.base
  {
    hide IsRun, Between, Newest;
    DeliveredExactlyOnce(after, states, actions, k);
    InSubscribed(Between(states[k].log, states[k].client.base, states[k].client.last), e);
  }

  /** An event is lost for ever as soon as a connection is opened, after it was committed, for a client
      that has accepted nothing. */
  lemma LostForEver(after: nat, states: seq<State>, actions: seq<Action>, c: nat, j: nat, k: nat)
    requires IsRun(states, actions) && states[0] == Start(after) && c < j < k < |states|
    requires actions[c].Commit? && StartsOver(states[j], actions[j])
    ensures actions[c].event !in states[k].client.accepted
  {
    hide Enabled, Step, Fits;
    var e := actions[c].event;
    StartFits(after);
    FitsThroughout(states, actions, j);
    FitsIncrease(states[j]);
    Committed(states, actions, c);
    LogGrows(states, actions, c + 1, j);
    LongerLogEndsLater(states[c + 1].log, states[j].log);
    StepMovesBase(states[j], actions[j]);
    assert states[j + 1] == Step(states[j], actions[j]);
    BaseNeverFalls(after, states, actions, j + 1, k);
    if e in states[k].client.accepted { AcceptedAreAboveBase(after, states, actions, k, e); }
  }

  lemma Committed(states: seq<State>, actions: seq<Action>, c: nat)
    requires IsRun(states, actions) && c < |actions| && actions[c].Commit?
    ensures actions[c].event in states[c + 1].log && actions[c].event.seqNo > LastSeq(states[c].log)
    ensures states[c + 1].log == states[c].log + [actions[c].event]
  {
    assert Enabled(states[c], actions[c]) && states[c + 1] == Step(states[c], actions[c]);
    assert (states[c].log + [actions[c].event])[|states[c].log|] == actions[c].event;
  }

  /** Exactly which events are lost: a subscribed event above the starting cursor is missing, once
      nothing is outstanding, if and only if after its commit a connection was opened for a client that
      had accepted nothing. */
  lemma LostExactlyWhen(after: nat, states: seq<State>, actions: seq<Action>, c: nat, k: nat)
    requires IsRun(states, actions) && states[0] == Start(after) && c < k < |states| && Drained(states[k])
    requires actions[c].Commit? && actions[c].event.subscribed && actions[c].event.seqNo > after
    ensures actions[c].event !in states[k].client.accepted
       <==> exists j :: c < j < k && StartsOver(states[j], actions[j])
  {
    hide Enabled, Step, Fits, StartsOver;
    var e := actions[c].event;
    if j :| c < j < k && StartsOver(states[j], actions[j]) {
      LostForEver(after, states, actions, c, j, k);
    } else {
      Committed(states, actions, c);
      NotOver(states[c], actions[c]);
      BaseStays(states, actions, c, k);
      BaseNeverFalls(after, states, actions, c, c);
      LogGrows(states, actions, c + 1, k);
      NothingMissed(after, states, actions, k);
      InAbove(states[k].log, states[k].client.base, e);
      InSubscribed(Above(states[k].log, states[k].client.base), e);
    }
  }

  lemma NotOver(s: State, a: Action)
    requires a.Commit?
    ensures !StartsOver(s, a)
  {
  }

  function First(): Event { Event(1, true, "") }

  function Second(): Event { Event(2, true, "") }

  predicate Moves(s: State, a: Action, t: State) {
    Enabled(s, a) && t == Step(s, a)
  }

  function Blank(): Client { Client(0, 0, [], []) }

  function Moved(): Client { Client(0, 1, [], []) }

  function Following(mode: Mode, queued: nat): Option<Connection> {
    Some(Connection(1, 1, mode, queued, [], []))
  }

  function Ahead(wire: seq<Event>): Option<Connection> {
    Some(Connection(1, 2, Live, 2, [Second()], wire))
  }

  lemma LosingTheFirst()
    ensures Moves(Start(0), Connect, State([], 0, Some(Connection(0, 0, Requested, 0, [], [])), Blank()))
    ensures Moves(State([], 0, Some(Connection(0, 0, Requested, 0, [], [])), Blank()), Disconnect, State([], 0, None, Blank()))
    ensures Moves(State([], 0, None, Blank()), Commit(First()), State([First()], 0, None, Blank()))
    ensures Moves(State([First()], 0, None, Blank()), Connect, State([First()], 0, Following(Requested, 0), Moved()))
  {
  }

  lemma FollowingOn()
    ensures Moves(State([First()], 0, Following(Requested, 0), Moved()), Subscribe, State([First()], 0, Following(Reading, 0), Moved()))
    ensures Moves(State([First()], 0, Following(Reading, 0), Moved()), ReadPage, State([First()], 0, Following(Live, 0), Moved()))
    ensures Moves(State([First()], 0, Following(Live, 0), Moved()), Commit(Second()), State([First(), Second()], 0, Following(Live, 0), Moved()))
    ensures Moves(State([First(), Second()], 0, Following(Live, 0), Moved()), FanOut, State([First(), Second()], 1, Following(Live, 0), Moved()))
  {
  }

  lemma GettingTheSecond()
    ensures Moves(State([First(), Second()], 1, Following(Live, 0), Moved()), FanOut, State([First(), Second()], 2, Following(Live, 0), Moved()))
    ensures Moves(State([First(), Second()], 2, Following(Live, 0), Moved()), TakeFromQueue, State([First(), Second()], 2, Following(Live, 1), Moved()))
    ensures Moves(State([First(), Second()], 2, Following(Live, 1), Moved()), TakeFromQueue, State([First(), Second()], 2, Ahead([Second()]), Moved()))
    ensures Moves(State([First(), Second()], 2, Ahead([Second()]), Moved()), Deliver,
                  State([First(), Second()], 2, Ahead([]), Client(2, 1, [Second()], [Second()])))
  {
    assert [] + [Second()] == [Second()] && [Second()][1..] == [];
  }

  /** A client without a starting cursor that loses its connection before it accepted anything skips
      what was committed meanwhile: it ends up with the second event and never gets the first. */
  lemma WithoutCursorEventsAreSkipped() returns (states: seq<State>, actions: seq<Action>)
    ensures IsRun(states, actions) && states[0] == Start(0) && actions != [] && actions[0] == Connect
    ensures var s := states[|states| - 1]; s.log == [First(), Second()] && Drained(s) && s.client.accepted == [Second()]
  {
    LosingTheFirst();
    FollowingOn();
    GettingTheSecond();
    var log := [First(), Second()];
    states := [
      Start(0),
      State([], 0, Some(Connection(0, 0, Requested, 0, [], [])), Blank()),
      State([], 0, None, Blank()),
      State([First()], 0, None, Blank()),
      State([First()], 0, Following(Requested, 0), Moved()),
      State([First()], 0, Following(Reading, 0), Moved()),
      State([First()], 0, Following(Live, 0), Moved()),
      State(log, 0, Following(Live, 0), Moved()),
      State(log, 1, Following(Live, 0), Moved()),
      State(log, 2, Following(Live, 0), Moved()),
      State(log, 2, Following(Live, 1), Moved()),
      State(log, 2, Ahead([Second()]), Moved()),
      State(log, 2, Ahead([]), Client(2, 1, [Second()], [Second()]))];
    actions := [Connect, Disconnect, Commit(First()), Connect, Subscribe, ReadPage, Commit(Second()), FanOut, FanOut,
                TakeFromQueue, TakeFromQueue, Deliver];
    MovesMakeRun(states, actions);
  }

  lemma MovesMakeRun(states: seq<State>, actions: seq<Action>)
    requires |states| == |actions| + 1 && forall k :: 0 <= k < |actions| ==> Moves(states[k], actions[k], states[k + 1])
    ensures IsRun(states, actions)
  {
    forall k | 0 <= k < |actions| ensures Enabled(states[k], actions[k]) && states[k + 1] == Step(states[k], actions[k]) {
      assert Moves(states[k], actions[k], states[k + 1]);
    }
    hide Enabled, Step;
  }
}
