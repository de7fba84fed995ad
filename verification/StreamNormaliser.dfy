/** Tool calls arrive from the provider in fragments.  The accumulator holds a call back until its
    id is known; what it emits for a call then depends on the fragments of that call alone. */
module StreamNormaliser {
  import opened Common

  /** Trimming white space, and reading JSON text as an object (nothing when it is not one). */
  datatype Language = Language(strip: string -> string, parse: string -> Option<string>)

  datatype Event =
    | Start(callId: string, name: string)
    | Delta(callId: string, name: string, text: string)
    | End(callId: string, name: string, arguments: string)

  /** An empty id or name stands for one that is not known yet. */
  datatype Call = Call(id: string, name: string, parts: seq<string>, emitted: nat,
                       final: Option<string>, started: bool, ended: bool)

  /** The calls by key, the keys in the order of their first fragment, and the key that owns each id. */
  datatype Accumulated = Accumulated(calls: map<string, Call>, order: seq<string>, owners: map<string, string>)

  datatype Emission = Refused | Emitted(call: Call, events: seq<Event>)
  datatype Outcome = Failed | Advanced(state: Accumulated, events: seq<Event>)

  /** A fragment of a call, or the provider's word that its arguments are complete. */
  datatype Input =
    | Fragment(key: string, id: string, name: string, delta: string)
    | Complete(key: string, raw: string)

  function NewCall(): Call {
    Call("", "", [], 0, None, false, false)
  }

  function Nothing(): Accumulated {
    Accumulated(map[], [], map[])
  }

  // ---------------------------------------------------------------- the code, on values

  function Deltas(parts: seq<string>, id: string, name: string): (events: seq<Event>)
    ensures |events| == |parts| && forall k :: 0 <= k < |events| ==> events[k] == Delta(id, name, parts[k])
  {
    seq(|parts|, i requires 0 <= i < |parts| => Delta(id, name, parts[i]))
  }

  /** Emit whatever may be emitted: nothing before the id is known, the end once the arguments are final. */
  function EmitReady(lang: Language, c: Call): Emission
    requires c.emitted <= |c.parts|
  {
    if c.id == "" then Emitted(c, [])
    else
      var opening := if c.started then [] else [Start(c.id, c.name)];
      var events := opening + Deltas(c.parts[c.emitted..], c.id, c.name);
      var flushed := c.(started := true, emitted := |c.parts|);
      if c.final.None? || c.ended then Emitted(flushed, events)
      else if c.name == "" || lang.parse(c.final.value).None? then Refused
      else Emitted(flushed.(ended := true), events + [End(c.id, c.name, lang.parse(c.final.value).value)])
  }

  function CallAt(s: Accumulated, key: string): Call {
    if key in s.calls then s.calls[key] else NewCall()
  }

  /** The fragment contradicts what is known of its call, or claims the id of another call. */
  predicate Contradicts(lang: Language, s: Accumulated, f: Input)
    requires f.Fragment?
  {
    var c := CallAt(s, f.key);
    var id, name := lang.strip(f.id), lang.strip(f.name);
    || (c.ended && f.delta != "")
    || (f.id != "" && (id == "" || (c.id != "" && c.id != id) || (id in s.owners && s.owners[id] != f.key)))
    || (f.name != "" && c.name != "" && c.name != name)
  }

  function Learned(lang: Language, c: Call, f: Input): Call
    requires f.Fragment?
  {
    c.(id := if f.id != "" then lang.strip(f.id) else c.id,
       name := if f.name != "" then lang.strip(f.name) else c.name,
       parts := if f.delta != "" then c.parts + [f.delta] else c.parts)
  }

  function Put(s: Accumulated, key: string, c: Call): Accumulated {
    Accumulated(s.calls[key := c], if key in s.calls then s.order else s.order + [key],
                if c.id != "" then s.owners[c.id := key] else s.owners)
  }

  function Observed(lang: Language, s: Accumulated, f: Input): Outcome
    requires f.Fragment? && Ready(s)
  {
    var c := Learned(lang, CallAt(s, f.key), f);
    if Contradicts(lang, s, f) then Failed
    else
      match EmitReady(lang, c)
      case Refused => Failed
      case Emitted(after, events) => Advanced(Put(s, f.key, after), events)
  }

  function Finished(lang: Language, s: Accumulated, f: Input): Outcome
    requires f.Complete? && f.key in s.calls && Ready(s)
  {
    var c := s.calls[f.key];
    if c.final.Some? then (if c.final.value == f.raw then Advanced(s, []) else Failed)
    else
      match EmitReady(lang, c.(final := Some(f.raw)))
      case Refused => Failed
      case Emitted(after, events) => Advanced(Put(s, f.key, after), events)
  }

  /** Between inputs, a call whose id is known has nothing left to emit, and one whose id is unknown
      has emitted nothing. */
  predicate Flushed(c: Call) {
    && (c.id == "" ==> !c.started && c.emitted == 0 && !c.ended)
    && (c.id != "" ==> c.started && c.emitted == |c.parts| && (c.ended <==> c.final.Some?))
  }

  predicate Ready(s: Accumulated) {
    forall k :: k in s.calls ==> Flushed(s.calls[k])
  }

  predicate Applicable(s: Accumulated, input: Input) {
    Ready(s) && (input.Complete? ==> input.key in s.calls)
  }

  function Apply(lang: Language, s: Accumulated, input: Input): Outcome
    requires Applicable(s, input)
  {
    if input.Fragment? then Observed(lang, s, input) else Finished(lang, s, input)
  }

  lemma ApplyKeepsReady(lang: Language, s: Accumulated, input: Input)
    requires Applicable(s, input) && Apply(lang, s, input).Advanced?
    ensures Ready(Apply(lang, s, input).state)
  {
  }

  /** A stream of inputs from the start; an error ends it, and so does completing an unknown call. */
  function Run(lang: Language, inputs: seq<Input>): (r: Outcome)
    ensures r.Advanced? ==> Ready(r.state)
  {
    if inputs == [] then Advanced(Nothing(), [])
    else
      var before := Run(lang, inputs[..|inputs| - 1]);
      var input := inputs[|inputs| - 1];
      if before.Failed? || (input.Complete? && input.key !in before.state.calls) then Failed
      else
        var after := Apply(lang, before.state, input);
        if after.Failed? then Failed
        else
          ApplyKeepsReady(lang, before.state, input);
          Advanced(after.state, before.events + after.events)
  }

  // ---------------------------------------------------------------- what the provider said

  /** All the argument text of a call, fragment by fragment. */
  function Pieces(inputs: seq<Input>, key: string): seq<string> {
    if inputs == [] then []
    else
      var last := inputs[|inputs| - 1];
      Pieces(inputs[..|inputs| - 1], key)
      + if last.Fragment? && last.key == key && last.delta != "" then [last.delta] else []
  }

  function SaidFinal(inputs: seq<Input>, key: string): Option<string> {
    if inputs == [] then None
    else
      var last := inputs[|inputs| - 1];
      if last.Complete? && last.key == key then Some(last.raw) else SaidFinal(inputs[..|inputs| - 1], key)
  }

  function SaidId(lang: Language, inputs: seq<Input>, key: string): string {
    if inputs == [] then ""
    else
      var last := inputs[|inputs| - 1];
      if last.Fragment? && last.key == key && last.id != "" then lang.strip(last.id)
      else SaidId(lang, inputs[..|inputs| - 1], key)
  }

  function SaidName(lang: Language, inputs: seq<Input>, key: string): string {
    if inputs == [] then ""
    else
      var last := inputs[|inputs| - 1];
      if last.Fragment? && last.key == key && last.name != "" then lang.strip(last.name)
      else SaidName(lang, inputs[..|inputs| - 1], key)
  }

  predicate Mentioned(inputs: seq<Input>, key: string) {
    exists k :: 0 <= k < |inputs| && inputs[k].key == key
  }

  // ---------------------------------------------------------------- what is emitted for one call

  /** An event without the name, which may become known only after a call has started. */
  datatype Shape = Opened | Piece(text: string) | Closed(arguments: string)

  function ShapeOf(e: Event): Shape {
    match e
    case Start(_, _) => Opened
    case Delta(_, _, text) => Piece(text)
    case End(_, _, arguments) => Closed(arguments)
  }

  function Projection(events: seq<Event>, id: string): seq<Shape> {
    if events == [] then []
    else
      var last := events[|events| - 1];
      Projection(events[..|events| - 1], id) + if last.callId == id then [ShapeOf(last)] else []
  }

  function Spell(pieces: seq<string>): (r: seq<Shape>)
    ensures |r| == |pieces| && forall k :: 0 <= k < |r| ==> r[k] == Piece(pieces[k])
  {
    seq(|pieces|, i requires 0 <= i < |pieces| => Piece(pieces[i]))
  }

  /** One start, the pieces in their order, and the end once the arguments are final. */
  function Canonical(lang: Language, pieces: seq<string>, final: Option<string>): seq<Shape> {
    [Opened] + Spell(pieces)
    + if final.Some? && lang.parse(final.value).Some? then [Closed(lang.parse(final.value).value)] else []
  }

  lemma {:induction false} ProjectionConcat(a: seq<Event>, b: seq<Event>, id: string)
    ensures Projection(a + b, id) == Projection(a, id) + Projection(b, id)
  {
    if b == [] {
      assert a + b == a;
    } else {
      assert (a + b)[..|a + b| - 1] == a + b[..|b| - 1];
      ProjectionConcat(a, b[..|b| - 1], id);
    }
  }

  lemma {:induction false} DeltasSpell(parts: seq<string>, id: string, name: string, other: string)
    ensures Projection(Deltas(parts, id, name), other) == if other == id then Spell(parts) else []
  {
    if parts != [] {
      var n := |parts| - 1;
      DeltasSpell(parts[..n], id, name, other);
      assert Deltas(parts, id, name)[..n] == Deltas(parts[..n], id, name);
      assert Spell(parts) == Spell(parts[..n]) + [Piece(parts[n])];
    }
  }

  /** What was emitted for a call so far, as far as the accumulator remembers. */
  function SoFar(lang: Language, c: Call): seq<Shape>
    requires c.emitted <= |c.parts|
  {
    if !c.started then []
    else
      [Opened] + Spell(c.parts[..c.emitted])
      + if c.ended && c.final.Some? && lang.parse(c.final.value).Some? then [Closed(lang.parse(c.final.value).value)] else []
  }

  /** The closing shape that emitting adds now. */
  function Closing(lang: Language, c: Call): seq<Shape> {
    if c.final.Some? && !c.ended && lang.parse(c.final.value).Some? then [Closed(lang.parse(c.final.value).value)] else []
  }

  lemma EmissionProjects(lang: Language, c: Call, id: string)
    requires c.id != "" && c.emitted <= |c.parts| && EmitReady(lang, c).Emitted?
    ensures Projection(EmitReady(lang, c).events, id)
         == if id == c.id then (if c.started then [] else [Opened]) + Spell(c.parts[c.emitted..]) + Closing(lang, c) else []
  {
    hide Deltas, Projection, Spell;
    var opening := if c.started then [] else [Start(c.id, c.name)];
    var deltas := Deltas(c.parts[c.emitted..], c.id, c.name);
    DeltasSpell(c.parts[c.emitted..], c.id, c.name, id);
    ProjectionConcat(opening, deltas, id);
    NoEvent(id);
    OneEvent(Start(c.id, c.name), id);
    if c.final.Some? && !c.ended {
      var end := End(c.id, c.name, lang.parse(c.final.value).value);
      ProjectionConcat(opening + deltas, [end], id);
      OneEvent(end, id);
    }
  }

  lemma NoEvent(id: string)
    ensures Projection([], id) == []
  {
  }

  lemma Regroup(a: seq<Shape>, early: seq<Shape>, late: seq<Shape>, z: seq<Shape>)
    ensures (a + early + []) + ([] + late + z) == a + (early + late) + z
    ensures [] + (a + late + z) == a + late + z
    ensures a + ([] + [] + []) == a
  {
  }

  /** Emitting brings what was emitted for the call up to its canonical form, and touches no other id. */
  lemma EmissionSpells(lang: Language, c: Call, id: string)
    requires c.id != "" && c.emitted <= |c.parts| && EmitReady(lang, c).Emitted?
    requires !c.started ==> c.emitted == 0 && !c.ended
    requires c.ended ==> c.emitted == |c.parts| && c.final.Some?
    ensures var e := EmitReady(lang, c);
            && (id == c.id ==> SoFar(lang, c) + Projection(e.events, id) == Canonical(lang, c.parts, c.final))
            && (id != c.id ==> Projection(e.events, id) == [])
  {
    hide EmitReady, Projection, Spell;
    EmissionProjects(lang, c, id);
    SpellSplit(c.parts, c.emitted);
    var early, late := Spell(c.parts[..c.emitted]), Spell(c.parts[c.emitted..]);
    if !c.started {
      assert c.parts[c.emitted..] == c.parts;
      Regroup([Opened], early, late, Closing(lang, c));
    } else if c.ended {
      Regroup(SoFar(lang, c), early, late, []);
    } else {
      Regroup([Opened], early, late, Closing(lang, c));
    }
  }

  lemma SpellSplit(pieces: seq<string>, n: nat)
    requires n <= |pieces|
    ensures Spell(pieces) == Spell(pieces[..n]) + Spell(pieces[n..])
    ensures n == 0 ==> Spell(pieces[..n]) == []
    ensures n == |pieces| ==> Spell(pieces[n..]) == [] && Spell(pieces[..n]) == Spell(pieces)
  {
  }

  lemma OneEvent(e: Event, id: string)
    ensures Projection([e], id) == if e.callId == id then [ShapeOf(e)] else []
  {
  }

  // ---------------------------------------------------------------- over whole streams

  /** What is stored about a call is what the provider said about it. */
  predicate Remembers(lang: Language, inputs: seq<Input>, key: string, c: Call) {
    && c.parts == Pieces(inputs, key) && c.final == SaidFinal(inputs, key)
    && c.id == SaidId(lang, inputs, key) && c.name == SaidName(lang, inputs, key)
    && (c.ended ==> c.final.Some? && c.name != "" && lang.parse(c.final.value).Some?)
  }

  /** Each id has one owner, and the owner is the call that has the id. */
  predicate Owned(s: Accumulated) {
    && (forall id :: id in s.owners ==> s.owners[id] in s.calls && s.calls[s.owners[id]].id == id && id != "")
    && (forall k :: k in s.calls && s.calls[k].id != "" ==> s.calls[k].id in s.owners && s.owners[s.calls[k].id] == k)
  }

  ghost predicate Told(lang: Language, s: Accumulated, events: seq<Event>) {
    && (forall k :: k in s.calls && s.calls[k].id != "" ==>
          Projection(events, s.calls[k].id) == Canonical(lang, s.calls[k].parts, s.calls[k].final))
    && (forall id :: id !in s.owners ==> Projection(events, id) == [])
  }

  ghost predicate Faithful(lang: Language, inputs: seq<Input>, s: Accumulated, events: seq<Event>) {
    && Ready(s) && Owned(s) && Told(lang, s, events)
    && (forall k :: k in s.calls <==> Mentioned(inputs, k))
    && (forall k :: k in s.calls ==> Remembers(lang, inputs, k, s.calls[k]))
  }

  lemma SaidNext(lang: Language, inputs: seq<Input>, input: Input, key: string)
    ensures var more := inputs + [input];
            && Pieces(more, key) == Pieces(inputs, key) + (if input.Fragment? && input.key == key && input.delta != "" then [input.delta] else [])
            && SaidFinal(more, key) == (if input.Complete? && input.key == key then Some(input.raw) else SaidFinal(inputs, key))
            && SaidId(lang, more, key)
               == (if input.Fragment? && input.key == key && input.id != "" then lang.strip(input.id) else SaidId(lang, inputs, key))
            && SaidName(lang, more, key)
               == (if input.Fragment? && input.key == key && input.name != "" then lang.strip(input.name) else SaidName(lang, inputs, key))
            && (Mentioned(more, key) <==> Mentioned(inputs, key) || input.key == key)
  {
  }

  lemma NothingSaid(lang: Language, inputs: seq<Input>, key: string)
    requires !Mentioned(inputs, key)
    ensures Remembers(lang, inputs, key, NewCall())
  {
    if inputs != [] {
      var before := inputs[..|inputs| - 1];
      assert forall k :: 0 <= k < |before| ==> before[k].key == inputs[k].key;
      NothingSaid(lang, before, key);
      assert inputs[|inputs| - 1].key != key;
    }
  }

  /** A call that has learned something since it was last flushed. */
  predicate Continues(was: Call, c: Call) {
    && Flushed(was) && c.emitted == was.emitted && c.started == was.started && c.ended == was.ended
    && (was.id != "" ==> c.id == was.id) && was.parts <= c.parts
    && (was.ended ==> c.parts == was.parts && c.final == was.final)
    && (was.final.Some? ==> c.final == was.final)
  }

  lemma PutKeepsOwned(s: Accumulated, key: string, c: Call)
    requires Owned(s) && (c.id in s.owners ==> s.owners[c.id] == key)
    requires CallAt(s, key).id != "" ==> c.id == CallAt(s, key).id
    ensures Owned(Put(s, key, c))
  {
  }

  lemma EmittedKeepsIdentity(lang: Language, c: Call)
    requires c.emitted <= |c.parts| && EmitReady(lang, c).Emitted?
    ensures var after := EmitReady(lang, c).call;
            && after.id == c.id && after.name == c.name && after.parts == c.parts && after.final == c.final
            && (after.ended && !c.ended ==> c.final.Some? && c.name != "" && lang.parse(c.final.value).Some?)
  {
  }

  /** What the events say of the call is what the accumulator remembers having emitted. */
  lemma ToldSoFar(lang: Language, s: Accumulated, events: seq<Event>, key: string, c: Call)
    requires Owned(s) && Told(lang, s, events) && c.id != "" && Continues(CallAt(s, key), c)
    requires c.id in s.owners ==> s.owners[c.id] == key
    ensures c.emitted <= |c.parts| && Projection(events, c.id) == SoFar(lang, c)
  {
  }

  lemma ToldAfter(lang: Language, s: Accumulated, events: seq<Event>, more: seq<Event>, key: string, c: Call)
    requires Owned(s) && Owned(Put(s, key, c)) && Told(lang, s, events)
    requires c.id != "" ==> Projection(events + more, c.id) == Canonical(lang, c.parts, c.final)
    requires forall id :: id != c.id || c.id == "" ==> Projection(events + more, id) == Projection(events, id)
    ensures Told(lang, Put(s, key, c), events + more)
  {
  }

  lemma OnlyOwnEvents(lang: Language, c: Call, events: seq<Event>, id: string)
    requires c.emitted <= |c.parts| && EmitReady(lang, c).Emitted? && (c.id == "" || id != c.id)
    ensures Projection(events + EmitReady(lang, c).events, id) == Projection(events, id)
  {
    var more := EmitReady(lang, c).events;
    ProjectionConcat(events, more, id);
    if c.id != "" {
      EmissionProjects(lang, c, id);
    } else {
      NoEvent(id);
    }
    assert Projection(events, id) + [] == Projection(events, id);
  }

  /** Putting a call back under its key, after emitting what is ready. */
  lemma PutKeepsTold(lang: Language, s: Accumulated, events: seq<Event>, key: string, c: Call)
    requires Owned(s) && Told(lang, s, events) && Continues(CallAt(s, key), c)
    requires c.emitted <= |c.parts| && EmitReady(lang, c).Emitted?
    requires c.id in s.owners ==> s.owners[c.id] == key
    ensures var e := EmitReady(lang, c);
            Owned(Put(s, key, e.call)) && Told(lang, Put(s, key, e.call), events + e.events)
  {
    hide Projection, Canonical, SoFar, EmitReady, Told;
    var e := EmitReady(lang, c);
    EmittedKeepsIdentity(lang, c);
    PutKeepsOwned(s, key, e.call);
    forall id | id != c.id || c.id == "" ensures Projection(events + e.events, id) == Projection(events, id) {
      OnlyOwnEvents(lang, c, events, id);
    }
    if c.id != "" {
      ToldSoFar(lang, s, events, key, c);
      ProjectionConcat(events, e.events, c.id);
      EmissionSpells(lang, c, c.id);
    }
    ToldAfter(lang, s, events, e.events, key, e.call);
  }

  lemma PutRemembers(lang: Language, inputs: seq<Input>, input: Input, s: Accumulated, c: Call)
    requires forall k :: k in s.calls <==> Mentioned(inputs, k)
    requires forall k :: k in s.calls ==> Remembers(lang, inputs, k, s.calls[k])
    requires Remembers(lang, inputs + [input], input.key, c)
    ensures var t := Put(s, input.key, c);
            && (forall k :: k in t.calls <==> Mentioned(inputs + [input], k))
            && (forall k :: k in t.calls ==> Remembers(lang, inputs + [input], k, t.calls[k]))
  {
  }

  lemma ObserveKeepsFaithful(lang: Language, inputs: seq<Input>, s: Accumulated, events: seq<Event>, f: Input)
    requires Faithful(lang, inputs, s, events) && f.Fragment? && Observed(lang, s, f).Advanced?
    ensures var r := Observed(lang, s, f); Faithful(lang, inputs + [f], r.state, events + r.events)
  {
    hide Told, Mentioned, Pieces, SaidFinal, SaidId, SaidName;
    var was := CallAt(s, f.key);
    var c := Learned(lang, was, f);
    if f.key !in s.calls { NothingSaid(lang, inputs, f.key); }
    assert Remembers(lang, inputs, f.key, was);
    SaidNext(lang, inputs, f, f.key);
    ApplyKeepsReady(lang, s, f);
    EmittedKeepsIdentity(lang, c);
    assert Continues(was, c);
    PutKeepsTold(lang, s, events, f.key, c);
    hide EmitReady;
    PutRemembers(lang, inputs, f, s, EmitReady(lang, c).call);
  }

  lemma FinishKeepsFaithful(lang: Language, inputs: seq<Input>, s: Accumulated, events: seq<Event>, f: Input)
    requires Faithful(lang, inputs, s, events) && f.Complete? && f.key in s.calls && Finished(lang, s, f).Advanced?
    ensures var r := Finished(lang, s, f); Faithful(lang, inputs + [f], r.state, events + r.events)
  {
    hide Told, Mentioned, Pieces, SaidFinal, SaidId, SaidName;
    var was := s.calls[f.key];
    SaidNext(lang, inputs, f, f.key);
    assert Remembers(lang, inputs, f.key, was);
    ApplyKeepsReady(lang, s, f);
    if was.final.Some? {
      AgainRemembers(lang, inputs, f, s);
      assert events + [] == events;
    } else {
      var c := was.(final := Some(f.raw));
      EmittedKeepsIdentity(lang, c);
      PutKeepsTold(lang, s, events, f.key, c);
      hide EmitReady;
      PutRemembers(lang, inputs, f, s, EmitReady(lang, c).call);
    }
  }

  /** Saying again that the same arguments are complete changes nothing. */
  lemma AgainRemembers(lang: Language, inputs: seq<Input>, f: Input, s: Accumulated)
    requires forall k :: k in s.calls <==> Mentioned(inputs, k)
    requires forall k :: k in s.calls ==> Remembers(lang, inputs, k, s.calls[k])
    requires f.Complete? && f.key in s.calls && s.calls[f.key].final == Some(f.raw)
    ensures forall k :: k in s.calls <==> Mentioned(inputs + [f], k)
    ensures forall k :: k in s.calls ==> Remembers(lang, inputs + [f], k, s.calls[k])
  {
    hide Mentioned, Pieces, SaidFinal, SaidId, SaidName;
    forall k ensures k in s.calls <==> Mentioned(inputs + [f], k) {
      SaidNext(lang, inputs, f, k);
    }
    forall k | k in s.calls ensures Remembers(lang, inputs + [f], k, s.calls[k]) {
      SaidNext(lang, inputs, f, k);
      assert Remembers(lang, inputs, k, s.calls[k]);
    }
  }

  lemma {:induction false} RunIsFaithful(lang: Language, inputs: seq<Input>)
    requires Run(lang, inputs).Advanced?
    ensures var r := Run(lang, inputs); Faithful(lang, inputs, r.state, r.events)
  {
    hide Faithful, Observed, Finished;
    if inputs == [] {
      StartIsFaithful(lang);
    } else {
      var before, input := inputs[..|inputs| - 1], inputs[|inputs| - 1];
      assert inputs == before + [input];
      RunIsFaithful(lang, before);
      var r := Run(lang, before);
      if input.Fragment? {
        ObserveKeepsFaithful(lang, before, r.state, r.events, input);
      } else {
        FinishKeepsFaithful(lang, before, r.state, r.events, input);
      }
    }
  }

  lemma StartIsFaithful(lang: Language)
    ensures Faithful(lang, [], Nothing(), [])
  {
  }

  /** For every error-free stream, what is emitted for a call whose id became known is its canonical
      form: one start, all its pieces in their order, and one end once its arguments are final. */
  lemma EmissionIsCanonical(lang: Language, inputs: seq<Input>, key: string)
    requires Run(lang, inputs).Advanced? && SaidId(lang, inputs, key) != ""
    ensures Projection(Run(lang, inputs).events, SaidId(lang, inputs, key))
         == Canonical(lang, Pieces(inputs, key), SaidFinal(inputs, key))
    ensures SaidFinal(inputs, key).Some? ==> lang.parse(SaidFinal(inputs, key).value).Some?
  {
    RunIsFaithful(lang, inputs);
    var s := Run(lang, inputs).state;
    if !Mentioned(inputs, key) { NothingSaid(lang, inputs, key); }
    assert Remembers(lang, inputs, key, s.calls[key]);
    hide Run, Projection, Canonical, Pieces, SaidId, SaidName, SaidFinal;
  }

  /** Timing and interleaving do not matter: two error-free streams that say the same about a call
      emit the same for it, whatever they say about other calls, and whenever its id arrives. */
  lemma TimingDoesNotMatter(lang: Language, one: seq<Input>, other: seq<Input>, key: string)
    requires Run(lang, one).Advanced? && Run(lang, other).Advanced?
    requires SaidId(lang, one, key) == SaidId(lang, other, key) != ""
    requires Pieces(one, key) == Pieces(other, key) && SaidFinal(one, key) == SaidFinal(other, key)
    ensures Projection(Run(lang, one).events, SaidId(lang, one, key)) == Projection(Run(lang, other).events, SaidId(lang, one, key))
  {
    hide Run, Projection, Canonical, Pieces, SaidId, SaidFinal;
    EmissionIsCanonical(lang, one, key);
    EmissionIsCanonical(lang, other, key);
  }

  /** Two calls never share an id, and nothing is emitted under an id that no call has. */
  lemma IdsAreInjective(lang: Language, inputs: seq<Input>, one: string, other: string)
    requires Run(lang, inputs).Advanced? && SaidId(lang, inputs, one) == SaidId(lang, inputs, other) != ""
    ensures one == other
  {
    RunIsFaithful(lang, inputs);
    var s := Run(lang, inputs).state;
    if !Mentioned(inputs, one) { NothingSaid(lang, inputs, one); }
    if !Mentioned(inputs, other) { NothingSaid(lang, inputs, other); }
    assert Remembers(lang, inputs, one, s.calls[one]) && Remembers(lang, inputs, other, s.calls[other]);
    hide Run, Pieces, SaidId, SaidName, SaidFinal;
  }

  lemma NothingForStrangers(lang: Language, inputs: seq<Input>, id: string)
    requires Run(lang, inputs).Advanced?
    requires forall key :: Mentioned(inputs, key) ==> SaidId(lang, inputs, key) != id
    ensures Projection(Run(lang, inputs).events, id) == []
  {
    RunIsFaithful(lang, inputs);
    var s := Run(lang, inputs).state;
    forall k | k in s.calls ensures s.calls[k].id != id {
      assert Remembers(lang, inputs, k, s.calls[k]);
    }
    hide Run, Projection, Pieces, SaidId, SaidName, SaidFinal;
  }

  /** Whether every call that was mentioned came to its end. */
  predicate AllEnded(s: Accumulated) {
    forall k :: k in s.calls ==> s.calls[k].ended
  }

  /** The stream may be finalised exactly when every call got an id and final arguments; each of them
      has then ended, and its end is the last of its events. */
  lemma FinalisedMeansEnded(lang: Language, inputs: seq<Input>)
    requires Run(lang, inputs).Advanced?
    ensures AllEnded(Run(lang, inputs).state)
       <==> forall key :: Mentioned(inputs, key) ==> SaidId(lang, inputs, key) != "" && SaidFinal(inputs, key).Some?
    ensures AllEnded(Run(lang, inputs).state) ==>
              forall key :: Mentioned(inputs, key) ==>
                SaidFinal(inputs, key).Some? && lang.parse(SaidFinal(inputs, key).value).Some?
                && Projection(Run(lang, inputs).events, SaidId(lang, inputs, key))
                   == [Opened] + Spell(Pieces(inputs, key)) + [Closed(lang.parse(SaidFinal(inputs, key).value).value)]
  {
    RunIsFaithful(lang, inputs);
    var s := Run(lang, inputs).state;
    hide Run, Projection, Spell, Pieces, SaidId, SaidName, SaidFinal, Mentioned;
    forall k | k in s.calls
      ensures s.calls[k].ended <==> SaidId(lang, inputs, k) != "" && SaidFinal(inputs, k).Some?
    {
      assert Remembers(lang, inputs, k, s.calls[k]) && Flushed(s.calls[k]);
    }
    if AllEnded(s) {
      forall k | Mentioned(inputs, k)
        ensures SaidFinal(inputs, k).Some? && lang.parse(SaidFinal(inputs, k).value).Some?
        ensures Projection(Run(lang, inputs).events, SaidId(lang, inputs, k))
             == [Opened] + Spell(Pieces(inputs, k)) + [Closed(lang.parse(SaidFinal(inputs, k).value).value)]
      {
        EmissionIsCanonical(lang, inputs, k);
      }
    }
  }

  // ---------------------------------------------------------------- which streams are accepted

  predicate IdGiven(x: Input, key: string) {
    x.Fragment? && x.key == key && x.id != ""
  }

  predicate NameGiven(x: Input, key: string) {
    x.Fragment? && x.key == key && x.name != ""
  }

  predicate CompletedBy(x: Input, key: string) {
    x.Complete? && x.key == key
  }

  predicate IdKnown(inputs: seq<Input>, key: string) {
    exists i :: 0 <= i < |inputs| && IdGiven(inputs[i], key)
  }

  /** A name of nothing but white space names nothing. */
  predicate Named(lang: Language, inputs: seq<Input>, key: string) {
    exists i :: 0 <= i < |inputs| && NameGiven(inputs[i], key) && lang.strip(inputs[i].name) != ""
  }

  predicate Final(inputs: seq<Input>, key: string) {
    exists i :: 0 <= i < |inputs| && CompletedBy(inputs[i], key)
  }

  predicate Begun(inputs: seq<Input>, key: string) {
    exists i :: 0 <= i < |inputs| && inputs[i].Fragment? && inputs[i].key == key
  }

  predicate Parsable(lang: Language, inputs: seq<Input>, key: string) {
    forall i :: 0 <= i < |inputs| && CompletedBy(inputs[i], key) ==> lang.parse(inputs[i].raw).Some?
  }

  /** A call comes to its end with the input after which both its id and its arguments are known. */
  predicate EndsWith(inputs: seq<Input>, x: Input) {
    && !(IdKnown(inputs, x.key) && Final(inputs, x.key))
    && IdKnown(inputs + [x], x.key) && Final(inputs + [x], x.key)
  }

  /** An id is never empty; a call has one id, and no two calls share one. */
  predicate IdAgrees(lang: Language, inputs: seq<Input>, x: Input) {
    x.Fragment? && x.id != "" ==>
      && lang.strip(x.id) != ""
      && forall i :: 0 <= i < |inputs| && inputs[i].Fragment? && inputs[i].id != "" ==>
           (inputs[i].key == x.key <==> lang.strip(inputs[i].id) == lang.strip(x.id))
  }

  /** Once a call has a name it keeps it. */
  predicate NameAgrees(lang: Language, inputs: seq<Input>, x: Input) {
    x.Fragment? && x.name != "" ==>
      forall i :: 0 <= i < |inputs| && NameGiven(inputs[i], x.key) ==>
        lang.strip(inputs[i].name) == "" || lang.strip(inputs[i].name) == lang.strip(x.name)
  }

  /** Arguments are completed for a call that has begun, and always alike. */
  predicate CompletionAgrees(inputs: seq<Input>, x: Input) {
    x.Complete? ==>
      Begun(inputs, x.key) && forall i :: 0 <= i < |inputs| && CompletedBy(inputs[i], x.key) ==> inputs[i].raw == x.raw
  }

  /** No text follows the end of a call, which has a name and parsable arguments then. */
  predicate EndAgrees(lang: Language, inputs: seq<Input>, x: Input) {
    && (x.Fragment? && x.delta != "" ==> !(IdKnown(inputs, x.key) && Final(inputs, x.key)))
    && (EndsWith(inputs, x) ==> Named(lang, inputs + [x], x.key) && Parsable(lang, inputs + [x], x.key))
  }

  predicate Agrees(lang: Language, inputs: seq<Input>, x: Input) {
    IdAgrees(lang, inputs, x) && NameAgrees(lang, inputs, x) && CompletionAgrees(inputs, x) && EndAgrees(lang, inputs, x)
  }

  /** Every input agrees with all before it. */
  predicate Consistent(lang: Language, inputs: seq<Input>) {
    forall n :: 0 <= n < |inputs| ==> Agrees(lang, inputs[..n], inputs[n])
  }

  lemma ConsistentBefore(lang: Language, inputs: seq<Input>)
    requires inputs != []
    ensures var n := |inputs| - 1;
            Consistent(lang, inputs) <==> Consistent(lang, inputs[..n]) && Agrees(lang, inputs[..n], inputs[n])
  {
    hide Agrees;
    var n := |inputs| - 1;
    assert forall k :: 0 <= k < n ==> inputs[..n][..k] == inputs[..k] && inputs[..n][k] == inputs[k];
    if Consistent(lang, inputs) {
      assert Agrees(lang, inputs[..n], inputs[n]);
      forall k | 0 <= k < n ensures Agrees(lang, inputs[..n][..k], inputs[..n][k]) {
        assert Agrees(lang, inputs[..k], inputs[k]);
      }
    }
    if Consistent(lang, inputs[..n]) && Agrees(lang, inputs[..n], inputs[n]) {
      forall k | 0 <= k < |inputs| ensures Agrees(lang, inputs[..k], inputs[k]) {
        if k < n { assert Agrees(lang, inputs[..n][..k], inputs[..n][k]); }
      }
    }
  }

  /** What was said last about the id is what every fragment with an id said. */
  predicate IdSaid(lang: Language, inputs: seq<Input>, key: string) {
    && (IdKnown(inputs, key) <==> SaidId(lang, inputs, key) != "")
    && forall i :: 0 <= i < |inputs| && IdGiven(inputs[i], key) ==> lang.strip(inputs[i].id) == SaidId(lang, inputs, key)
  }

  predicate NameSaid(lang: Language, inputs: seq<Input>, key: string) {
    && (Named(lang, inputs, key) <==> SaidName(lang, inputs, key) != "")
    && forall i :: 0 <= i < |inputs| && NameGiven(inputs[i], key) ==>
         lang.strip(inputs[i].name) == "" || lang.strip(inputs[i].name) == SaidName(lang, inputs, key)
  }

  predicate FinalSaid(inputs: seq<Input>, key: string) {
    && (Final(inputs, key) <==> SaidFinal(inputs, key).Some?)
    && forall i :: 0 <= i < |inputs| && CompletedBy(inputs[i], key) ==> SaidFinal(inputs, key) == Some(inputs[i].raw)
  }

  lemma IdSaidNext(lang: Language, inputs: seq<Input>, x: Input, key: string)
    requires IdSaid(lang, inputs, key) && IdAgrees(lang, inputs, x)
    ensures IdSaid(lang, inputs + [x], key) && (IdKnown(inputs + [x], key) <==> IdKnown(inputs, key) || IdGiven(x, key))
  {
    hide SaidId, SaidName, SaidFinal, Pieces, Mentioned;
    SaidNext(lang, inputs, x, key);
    var more := inputs + [x];
    if IdGiven(x, key) { assert IdGiven(more[|inputs|], key); }
    if i :| 0 <= i < |inputs| && IdGiven(inputs[i], key) { assert IdGiven(more[i], key); }
  }

  lemma NameSaidNext(lang: Language, inputs: seq<Input>, x: Input, key: string)
    requires NameSaid(lang, inputs, key) && NameAgrees(lang, inputs, x)
    ensures NameSaid(lang, inputs + [x], key)
    ensures Named(lang, inputs + [x], key) <==> Named(lang, inputs, key) || (NameGiven(x, key) && lang.strip(x.name) != "")
  {
    hide SaidId, SaidName, SaidFinal, Pieces, Mentioned;
    SaidNext(lang, inputs, x, key);
    var more := inputs + [x];
    if NameGiven(x, key) { assert NameGiven(more[|inputs|], key); }
    if i :| 0 <= i < |inputs| && NameGiven(inputs[i], key) && lang.strip(inputs[i].name) != "" { assert NameGiven(more[i], key); }
  }

  lemma FinalSaidNext(lang: Language, inputs: seq<Input>, x: Input, key: string)
    requires FinalSaid(inputs, key) && CompletionAgrees(inputs, x)
    ensures FinalSaid(inputs + [x], key) && (Final(inputs + [x], key) <==> Final(inputs, key) || CompletedBy(x, key))
  {
    hide SaidId, SaidName, SaidFinal, Pieces, Mentioned;
    SaidNext(lang, inputs, x, key);
    var more := inputs + [x];
    if CompletedBy(x, key) { assert CompletedBy(more[|inputs|], key); }
    if i :| 0 <= i < |inputs| && CompletedBy(inputs[i], key) { assert CompletedBy(more[i], key); }
  }

  lemma BegunNext(inputs: seq<Input>, x: Input, key: string)
    ensures Begun(inputs + [x], key) <==> Begun(inputs, key) || (x.Fragment? && x.key == key)
  {
    var more := inputs + [x];
    if x.Fragment? && x.key == key { assert more[|inputs|] == x; }
    if i :| 0 <= i < |inputs| && inputs[i].Fragment? && inputs[i].key == key { assert more[i] == inputs[i]; }
  }

  /** In a consistent stream, what was said last is what was said at all, and a call that was mentioned
      has begun. */
  lemma {:induction false} AllSaidAlike(lang: Language, inputs: seq<Input>, key: string)
    requires Consistent(lang, inputs)
    ensures IdSaid(lang, inputs, key) && NameSaid(lang, inputs, key) && FinalSaid(inputs, key)
    ensures Mentioned(inputs, key) <==> Begun(inputs, key)
  {
    hide Consistent, IdSaid, NameSaid, FinalSaid, Mentioned, Begun, EndAgrees, IdAgrees, NameAgrees, SaidId, SaidName, SaidFinal, Pieces;
    if inputs == [] {
      NothingIsSaid(lang, key);
    } else {
      var before, x := inputs[..|inputs| - 1], inputs[|inputs| - 1];
      assert inputs == before + [x];
      ConsistentBefore(lang, inputs);
      AllSaidAlike(lang, before, key);
      IdSaidNext(lang, before, x, key);
      NameSaidNext(lang, before, x, key);
      FinalSaidNext(lang, before, x, key);
      BegunNext(before, x, key);
      SaidNext(lang, before, x, key);
    }
  }

  lemma NothingIsSaid(lang: Language, key: string)
    ensures IdSaid(lang, [], key) && NameSaid(lang, [], key) && FinalSaid([], key) && !Mentioned([], key) && !Begun([], key)
  {
  }

  // ---------------------------------------------------------------- agreeing, by what was said last

  predicate Ended(lang: Language, inputs: seq<Input>, key: string) {
    SaidId(lang, inputs, key) != "" && SaidFinal(inputs, key).Some?
  }

  predicate FragmentFits(lang: Language, inputs: seq<Input>, x: Input)
    requires x.Fragment?
  {
    var id, name := SaidId(lang, inputs, x.key), SaidName(lang, inputs, x.key);
    && (x.id != "" ==> lang.strip(x.id) != "" && (id == "" || id == lang.strip(x.id))
                       && forall i :: 0 <= i < |inputs| && inputs[i].key != x.key ==> SaidId(lang, inputs, inputs[i].key) != lang.strip(x.id))
    && (x.name != "" ==> name == "" || name == lang.strip(x.name))
    && (x.delta != "" ==> !Ended(lang, inputs, x.key))
    && ((id != "" || x.id != "") && SaidFinal(inputs, x.key).Some? && !Ended(lang, inputs, x.key) ==>
          (if x.name != "" then lang.strip(x.name) != "" else name != "") && lang.parse(SaidFinal(inputs, x.key).value).Some?)
  }

  predicate CompletionFits(lang: Language, inputs: seq<Input>, x: Input)
    requires x.Complete?
  {
    && Mentioned(inputs, x.key)
    && (SaidFinal(inputs, x.key).Some? ==> SaidFinal(inputs, x.key).value == x.raw)
    && (SaidFinal(inputs, x.key).None? && SaidId(lang, inputs, x.key) != "" ==>
          SaidName(lang, inputs, x.key) != "" && lang.parse(x.raw).Some?)
  }

  lemma IdFits(lang: Language, inputs: seq<Input>, x: Input)
    requires x.Fragment? && x.id != "" && forall key :: IdSaid(lang, inputs, key)
    ensures IdAgrees(lang, inputs, x)
       <==> && lang.strip(x.id) != "" && (SaidId(lang, inputs, x.key) == "" || SaidId(lang, inputs, x.key) == lang.strip(x.id))
            && forall i :: 0 <= i < |inputs| && inputs[i].key != x.key ==> SaidId(lang, inputs, inputs[i].key) != lang.strip(x.id)
  {
    hide SaidId;
    var id := lang.strip(x.id);
    assert IdSaid(lang, inputs, x.key);
    if IdAgrees(lang, inputs, x) {
      if SaidId(lang, inputs, x.key) != "" {
        var i :| 0 <= i < |inputs| && IdGiven(inputs[i], x.key);
        assert lang.strip(inputs[i].id) == id;
      }
      forall i | 0 <= i < |inputs| && inputs[i].key != x.key ensures SaidId(lang, inputs, inputs[i].key) != id {
        assert IdSaid(lang, inputs, inputs[i].key);
        if SaidId(lang, inputs, inputs[i].key) != "" {
          var j :| 0 <= j < |inputs| && IdGiven(inputs[j], inputs[i].key);
        }
      }
    } else if id != "" {
      var i :| 0 <= i < |inputs| && inputs[i].Fragment? && inputs[i].id != "" && !(inputs[i].key == x.key <==> lang.strip(inputs[i].id) == id);
      assert IdGiven(inputs[i], inputs[i].key) && IdSaid(lang, inputs, inputs[i].key);
    }
  }

  lemma NameFits(lang: Language, inputs: seq<Input>, x: Input)
    requires x.Fragment? && x.name != "" && NameSaid(lang, inputs, x.key)
    ensures NameAgrees(lang, inputs, x) <==> SaidName(lang, inputs, x.key) == "" || SaidName(lang, inputs, x.key) == lang.strip(x.name)
  {
    hide SaidName;
    if NameAgrees(lang, inputs, x) && SaidName(lang, inputs, x.key) != "" {
      var i :| 0 <= i < |inputs| && NameGiven(inputs[i], x.key) && lang.strip(inputs[i].name) != "";
    }
    if SaidName(lang, inputs, x.key) == "" {
      forall i | 0 <= i < |inputs| && NameGiven(inputs[i], x.key) ensures lang.strip(inputs[i].name) == "" {
      }
    }
  }

  lemma ParsableMeans(lang: Language, inputs: seq<Input>, key: string)
    requires FinalSaid(inputs, key) && Final(inputs, key)
    ensures Parsable(lang, inputs, key) <==> lang.parse(SaidFinal(inputs, key).value).Some?
  {
    hide SaidFinal;
    var i :| 0 <= i < |inputs| && CompletedBy(inputs[i], key);
  }

  /** A fragment agrees with what came before it, seen through what was said last. */
  lemma FragmentAgrees(lang: Language, inputs: seq<Input>, x: Input)
    requires x.Fragment? && Consistent(lang, inputs)
    ensures Agrees(lang, inputs, x) <==> FragmentFits(lang, inputs, x)
  {
    hide Consistent, IdSaid, NameSaid, FinalSaid, SaidId, SaidName, SaidFinal, IdKnown, Named, Final, Parsable, IdAgrees, NameAgrees, Mentioned, Begun;
    forall key ensures IdSaid(lang, inputs, key) { AllSaidAlike(lang, inputs, key); }
    AllSaidAlike(lang, inputs, x.key);
    if x.id != "" { IdFits(lang, inputs, x); } else { NoIdGiven(lang, inputs, x); }
    if x.name != "" { NameFits(lang, inputs, x); } else { NoNameGiven(lang, inputs, x); }
    KnownBySaid(lang, inputs, x.key);
    if IdAgrees(lang, inputs, x) && NameAgrees(lang, inputs, x) {
      IdSaidNext(lang, inputs, x, x.key);
      NameSaidNext(lang, inputs, x, x.key);
      FinalSaidNext(lang, inputs, x, x.key);
      SaidNext(lang, inputs, x, x.key);
      KnownBySaid(lang, inputs + [x], x.key);
      if Final(inputs + [x], x.key) { ParsableMeans(lang, inputs + [x], x.key); }
    }
  }

  lemma NoIdGiven(lang: Language, inputs: seq<Input>, x: Input)
    requires x.Fragment? && x.id == ""
    ensures IdAgrees(lang, inputs, x)
  {
  }

  lemma NoNameGiven(lang: Language, inputs: seq<Input>, x: Input)
    requires x.Fragment? && x.name == ""
    ensures NameAgrees(lang, inputs, x)
  {
  }

  lemma KnownBySaid(lang: Language, inputs: seq<Input>, key: string)
    requires IdSaid(lang, inputs, key) && NameSaid(lang, inputs, key) && FinalSaid(inputs, key)
    ensures IdKnown(inputs, key) <==> SaidId(lang, inputs, key) != ""
    ensures Named(lang, inputs, key) <==> SaidName(lang, inputs, key) != ""
    ensures Final(inputs, key) <==> SaidFinal(inputs, key).Some?
  {
  }

  lemma CompletionAgreesMeans(inputs: seq<Input>, x: Input)
    requires x.Complete? && FinalSaid(inputs, x.key) && (Mentioned(inputs, x.key) <==> Begun(inputs, x.key))
    ensures CompletionAgrees(inputs, x)
       <==> Mentioned(inputs, x.key) && (SaidFinal(inputs, x.key).Some? ==> SaidFinal(inputs, x.key).value == x.raw)
  {
    hide SaidFinal, Mentioned, Begun;
    if SaidFinal(inputs, x.key).Some? {
      var i :| 0 <= i < |inputs| && CompletedBy(inputs[i], x.key);
    }
  }

  lemma CompletionIsAgreed(lang: Language, inputs: seq<Input>, x: Input)
    requires x.Complete? && Consistent(lang, inputs)
    ensures Agrees(lang, inputs, x) <==> CompletionFits(lang, inputs, x)
  {
    hide Consistent, IdSaid, NameSaid, FinalSaid, SaidId, SaidName, SaidFinal, IdKnown, Named, Final, Parsable, CompletionAgrees, Mentioned, Begun;
    AllSaidAlike(lang, inputs, x.key);
    CompletionAgreesMeans(inputs, x);
    KnownBySaid(lang, inputs, x.key);
    if CompletionAgrees(inputs, x) {
      IdSaidNext(lang, inputs, x, x.key);
      NameSaidNext(lang, inputs, x, x.key);
      FinalSaidNext(lang, inputs, x, x.key);
      SaidNext(lang, inputs, x, x.key);
      KnownBySaid(lang, inputs + [x], x.key);
      if Final(inputs + [x], x.key) { ParsableMeans(lang, inputs + [x], x.key); }
    }
  }

  // ---------------------------------------------------------------- agreeing is being accepted

  lemma RefusedExactlyWhen(lang: Language, c: Call)
    requires c.emitted <= |c.parts|
    ensures EmitReady(lang, c).Refused?
       <==> c.id != "" && c.final.Some? && !c.ended && (c.name == "" || lang.parse(c.final.value).None?)
  {
  }

  /** Another call owns the id exactly when it was said of another call. */
  lemma OwnedElsewhere(lang: Language, inputs: seq<Input>, s: Accumulated, events: seq<Event>, key: string, id: string)
    requires Faithful(lang, inputs, s, events) && id != ""
    ensures (id in s.owners && s.owners[id] != key)
       <==> exists i :: 0 <= i < |inputs| && inputs[i].key != key && SaidId(lang, inputs, inputs[i].key) == id
  {
    hide Told, Pieces, SaidId, SaidName, SaidFinal, Ready;
    if id in s.owners && s.owners[id] != key {
      var k := s.owners[id];
      assert Mentioned(inputs, k) && Remembers(lang, inputs, k, s.calls[k]);
      var i :| 0 <= i < |inputs| && inputs[i].key == k;
      assert SaidId(lang, inputs, inputs[i].key) == id;
    }
    if i :| 0 <= i < |inputs| && inputs[i].key != key && SaidId(lang, inputs, inputs[i].key) == id {
      assert Mentioned(inputs, inputs[i].key) && Remembers(lang, inputs, inputs[i].key, s.calls[inputs[i].key]);
    }
  }

  lemma CallIsSaid(lang: Language, inputs: seq<Input>, s: Accumulated, events: seq<Event>, key: string)
    requires Faithful(lang, inputs, s, events)
    ensures var c := CallAt(s, key);
            && c.final == SaidFinal(inputs, key) && c.id == SaidId(lang, inputs, key) && c.name == SaidName(lang, inputs, key)
            && c.emitted <= |c.parts| && (c.ended <==> Ended(lang, inputs, key)) && (key in s.calls <==> Mentioned(inputs, key))
  {
    hide Told, Pieces, SaidId, SaidName, SaidFinal, Mentioned;
    if key in s.calls {
      assert Remembers(lang, inputs, key, s.calls[key]) && Flushed(s.calls[key]);
    } else {
      NothingSaid(lang, inputs, key);
    }
  }

  lemma FragmentAccepted(lang: Language, inputs: seq<Input>, s: Accumulated, events: seq<Event>, x: Input)
    requires Faithful(lang, inputs, s, events) && x.Fragment?
    ensures Observed(lang, s, x).Advanced? <==> FragmentFits(lang, inputs, x)
  {
    CallIsSaid(lang, inputs, s, events, x.key);
    var c := Learned(lang, CallAt(s, x.key), x);
    RefusedExactlyWhen(lang, c);
    if x.id != "" && lang.strip(x.id) != "" { OwnedElsewhere(lang, inputs, s, events, x.key, lang.strip(x.id)); }
    hide Faithful, EmitReady, SaidId, SaidName, SaidFinal, Mentioned;
  }

  lemma CompletionAccepted(lang: Language, inputs: seq<Input>, s: Accumulated, events: seq<Event>, x: Input)
    requires Faithful(lang, inputs, s, events) && x.Complete?
    ensures x.key in s.calls && Finished(lang, s, x).Advanced? <==> CompletionFits(lang, inputs, x)
  {
    CallIsSaid(lang, inputs, s, events, x.key);
    if x.key in s.calls { RefusedExactlyWhen(lang, s.calls[x.key].(final := Some(x.raw))); }
    hide EmitReady, SaidId, SaidName, SaidFinal, Mentioned, Told;
  }

  /** A stream is accepted if and only if what the provider says is consistent. */
  lemma {:induction false} AcceptedExactlyWhen(lang: Language, inputs: seq<Input>)
    ensures Run(lang, inputs).Advanced? <==> Consistent(lang, inputs)
  {
    hide Consistent, Agrees, Observed, Finished, FragmentFits, CompletionFits, Faithful;
    if inputs == [] {
      NothingIsConsistent(lang);
    } else {
      var before, x := inputs[..|inputs| - 1], inputs[|inputs| - 1];
      ConsistentBefore(lang, inputs);
      AcceptedExactlyWhen(lang, before);
      if Run(lang, before).Advanced? {
        RunIsFaithful(lang, before);
        var r := Run(lang, before);
        if x.Fragment? {
          FragmentAgrees(lang, before, x);
          FragmentAccepted(lang, before, r.state, r.events, x);
        } else {
          CompletionIsAgreed(lang, before, x);
          CompletionAccepted(lang, before, r.state, r.events, x);
        }
      }
    }
  }

  lemma NothingIsConsistent(lang: Language)
    ensures Consistent(lang, [])
  {
  }

  // ---------------------------------------------------------------- the accumulator

  function Concat(parts: seq<string>): string {
    if parts == [] then "" else Concat(parts[..|parts| - 1]) + parts[|parts| - 1]
  }

  /** The keys are listed once each, in the order of their first fragment. */
  ghost predicate Listed(s: Accumulated) {
    (forall k :: k in s.calls <==> k in s.order) && forall i, j :: 0 <= i < j < |s.order| ==> s.order[i] != s.order[j]
  }

  lemma PutListed(s: Accumulated, key: string, c: Call)
    requires Listed(s)
    ensures Listed(Put(s, key, c))
  {
  }

  lemma FlushedIsBounded(s: Accumulated, key: string)
    requires Ready(s)
    ensures CallAt(s, key).emitted <= |CallAt(s, key).parts|
  {
  }

  /** The call keeps what it knows, and has final arguments: its own, or its pieces put together. */
  predicate Sealed(was: Call, now: Call) {
    && now.parts == was.parts && now.id == was.id && now.name == was.name
    && now.final == if was.final.Some? then was.final else Some(Concat(was.parts))
  }

  /** Completing a call without final arguments seals it, and touches no other call. */
  lemma CompletingSeals(lang: Language, s: Accumulated, key: string)
    requires Ready(s) && key in s.calls && s.calls[key].final.None?
    ensures var c := s.calls[key];
            var first := Observed(lang, s, Fragment(key, "", "", ""));
            && first.Advanced? && Ready(first.state) && key in first.state.calls
            && var r := Finished(lang, first.state, Complete(key, Concat(c.parts)));
               r.Advanced? ==> r.state.order == s.order && key in r.state.calls
                               && r.state.calls == s.calls[key := r.state.calls[key]] && Sealed(c, r.state.calls[key])
  {
  }

  /** More inputs after a state that earlier ones led to. */
  function Continue(lang: Language, s: Accumulated, inputs: seq<Input>): (r: Outcome)
    requires Ready(s)
    ensures r.Advanced? ==> Ready(r.state)
  {
    if inputs == [] then Advanced(s, [])
    else
      var before, input := Continue(lang, s, inputs[..|inputs| - 1]), inputs[|inputs| - 1];
      if before.Failed? || (input.Complete? && input.key !in before.state.calls) then Failed
      else
        var after := Apply(lang, before.state, input);
        if after.Failed? then Failed
        else
          ApplyKeepsReady(lang, before.state, input);
          Advanced(after.state, before.events + after.events)
  }

  /** Continuing a stream is running the longer stream. */
  lemma {:induction false} RunContinues(lang: Language, inputs: seq<Input>, more: seq<Input>)
    requires Run(lang, inputs).Advanced?
    ensures var first := Run(lang, inputs);
            var rest := Continue(lang, first.state, more);
            Run(lang, inputs + more) == if rest.Failed? then Failed else Advanced(rest.state, first.events + rest.events)
  {
    hide Apply, Ready;
    var first := Run(lang, inputs);
    if more == [] {
      assert inputs + more == inputs && first.events + [] == first.events;
    } else {
      var n := |more| - 1;
      assert (inputs + more)[..|inputs + more| - 1] == inputs + more[..n];
      RunContinues(lang, inputs, more[..n]);
      var before := Continue(lang, first.state, more[..n]);
      if before.Advanced? && Continue(lang, first.state, more).Advanced? {
        var after := Apply(lang, before.state, more[n]);
        assert first.events + before.events + after.events == first.events + (before.events + after.events);
      }
    }
  }

  lemma ContinueNext(lang: Language, s: Accumulated, inputs: seq<Input>, input: Input)
    requires Ready(s) && Continue(lang, s, inputs).Advanced?
    ensures var before := Continue(lang, s, inputs);
            var next := Continue(lang, s, inputs + [input]);
            if input.Complete? && input.key !in before.state.calls then next.Failed?
            else var after := Apply(lang, before.state, input);
                 next == if after.Failed? then Failed else Advanced(after.state, before.events + after.events)
  {
    assert (inputs + [input])[..|inputs|] == inputs;
  }

  lemma {:induction false} FailureStays(lang: Language, s: Accumulated, inputs: seq<Input>, more: seq<Input>)
    requires Ready(s) && Continue(lang, s, inputs).Failed?
    ensures Continue(lang, s, inputs + more).Failed?
  {
    hide Apply, Ready;
    if more == [] {
      assert inputs + more == inputs;
    } else {
      assert (inputs + more)[..|inputs + more| - 1] == inputs + more[..|more| - 1];
      FailureStays(lang, s, inputs, more[..|more| - 1]);
    }
  }

  /** For every call without final arguments, in order: an empty fragment, and its pieces put together
      as the final arguments. */
  function BufferedInputs(s: Accumulated, keys: seq<string>): seq<Input>
    requires forall k :: k in keys ==> k in s.calls
  {
    if keys == [] then []
    else
      var n := |keys| - 1;
      var c := s.calls[keys[n]];
      BufferedInputs(s, keys[..n])
      + if c.final.None? then [Fragment(keys[n], "", "", ""), Complete(keys[n], Concat(c.parts))] else []
  }

  lemma {:induction false} BufferedPrefix(s: Accumulated, keys: seq<string>, n: nat)
    requires n <= |keys| && forall k :: k in keys ==> k in s.calls
    ensures exists rest :: BufferedInputs(s, keys) == BufferedInputs(s, keys[..n]) + rest
  {
    if n == |keys| {
      assert keys[..n] == keys && BufferedInputs(s, keys) == BufferedInputs(s, keys[..n]) + [];
    } else {
      var m := |keys| - 1;
      BufferedPrefix(s, keys[..m], n);
      assert keys[..m][..n] == keys[..n];
      var rest :| BufferedInputs(s, keys[..m]) == BufferedInputs(s, keys[..n]) + rest;
      var last := BufferedInputs(s, keys)[|BufferedInputs(s, keys[..m])|..];
      assert BufferedInputs(s, keys) == BufferedInputs(s, keys[..n]) + (rest + last);
    }
  }

  lemma BufferedNext(s: Accumulated, keys: seq<string>, i: nat)
    requires i < |keys| && forall k :: k in keys ==> k in s.calls
    ensures BufferedInputs(s, keys[..i + 1])
         == BufferedInputs(s, keys[..i])
            + if s.calls[keys[i]].final.None? then [Fragment(keys[i], "", "", ""), Complete(keys[i], Concat(s.calls[keys[i]].parts))] else []
  {
    assert keys[..i + 1][..i] == keys[..i];
  }

  lemma BufferedFails(lang: Language, s: Accumulated, keys: seq<string>, n: nat)
    requires Ready(s) && n <= |keys| && (forall k :: k in keys ==> k in s.calls)
    requires Continue(lang, s, BufferedInputs(s, keys[..n])).Failed?
    ensures Continue(lang, s, BufferedInputs(s, keys)).Failed?
  {
    hide Continue, BufferedInputs;
    BufferedPrefix(s, keys, n);
    var rest :| BufferedInputs(s, keys) == BufferedInputs(s, keys[..n]) + rest;
    FailureStays(lang, s, BufferedInputs(s, keys[..n]), rest);
  }

  lemma NothingBuffered(lang: Language, s: Accumulated)
    requires Ready(s)
    ensures BufferedInputs(s, []) == [] && Continue(lang, s, []) == Advanced(s, [])
  {
  }

  /** One more call completed. */
  lemma CompleteNext(lang: Language, s: Accumulated, inputs: seq<Input>, key: string, raw: string)
    requires Ready(s) && Continue(lang, s, inputs).Advanced? && key in Continue(lang, s, inputs).state.calls
    ensures var before := Continue(lang, s, inputs);
            var first := Observed(lang, before.state, Fragment(key, "", "", ""));
            var next := Continue(lang, s, inputs + [Fragment(key, "", "", ""), Complete(key, raw)]);
            if first.Failed? || !Ready(first.state) || key !in first.state.calls then next.Failed?
            else var rest := Finished(lang, first.state, Complete(key, raw));
                 next == if rest.Failed? then Failed else Advanced(rest.state, before.events + (first.events + rest.events))
  {
    hide Continue, Observed, Finished, Contradicts, Learned, Ready;
    var before, f, c := Continue(lang, s, inputs), Fragment(key, "", "", ""), Complete(key, raw);
    assert inputs + [f, c] == inputs + [f] + [c];
    ContinueNext(lang, s, inputs, f);
    var first := Observed(lang, before.state, f);
    if first.Failed? {
      FailureStays(lang, s, inputs + [f], [c]);
    } else {
      ContinueNext(lang, s, inputs + [f], c);
      var rest := Apply(lang, before.state, f);
      ApplyKeepsReady(lang, before.state, f);
    }
  }

  /** How far completing the buffered calls has come. */
  ghost predicate SealedUpTo(s: Accumulated, t: Accumulated, n: nat)
    requires n <= |s.order|
  {
    && t.order == s.order && t.calls.Keys == s.calls.Keys && (forall k :: k in s.order ==> k in s.calls)
    && (forall j :: n <= j < |s.order| ==> t.calls[s.order[j]] == s.calls[s.order[j]])
    && (forall j :: 0 <= j < n ==> Sealed(s.calls[s.order[j]], t.calls[s.order[j]]))
  }

  lemma SealNext(s: Accumulated, t: Accumulated, u: Accumulated, n: nat)
    requires Listed(s) && n < |s.order| && SealedUpTo(s, t, n) && u.order == t.order
    requires s.order[n] in u.calls && u.calls == t.calls[s.order[n] := u.calls[s.order[n]]]
    requires Sealed(s.calls[s.order[n]], u.calls[s.order[n]])
    ensures SealedUpTo(s, u, n + 1)
  {
    assert s.order[n] in s.order;
    hide Sealed;
  }

  lemma {:induction false} BufferedSeals(lang: Language, s: Accumulated, n: nat)
    requires Ready(s) && Listed(s) && n <= |s.order|
    requires Continue(lang, s, BufferedInputs(s, s.order[..n])).Advanced?
    ensures SealedUpTo(s, Continue(lang, s, BufferedInputs(s, s.order[..n])).state, n)
  {
    hide Continue, BufferedInputs, Observed, Finished, Concat, Ready, Sealed;
    if n == 0 {
      assert s.order[..0] == [];
      NothingBuffered(lang, s);
    } else {
      var key := s.order[n - 1];
      assert key in s.order;
      var early := BufferedInputs(s, s.order[..n - 1]);
      BufferedNext(s, s.order, n - 1);
      if s.calls[key].final.None? {
        var inputs := [Fragment(key, "", "", ""), Complete(key, Concat(s.calls[key].parts))];
        if Continue(lang, s, early).Failed? { FailureStays(lang, s, early, inputs); }
        BufferedSeals(lang, s, n - 1);
        var t := Continue(lang, s, early).state;
        CompletingSeals(lang, t, key);
        CompleteNext(lang, s, early, key, Concat(s.calls[key].parts));
        SealNext(s, t, Continue(lang, s, BufferedInputs(s, s.order[..n])).state, n - 1);
      } else {
        assert early + [] == early;
        BufferedSeals(lang, s, n - 1);
        SealedAlready(s.calls[key]);
        SealNext(s, Continue(lang, s, early).state, Continue(lang, s, early).state, n - 1);
      }
    }
  }

  lemma SealedAlready(c: Call)
    requires c.final.Some?
    ensures Sealed(c, c)
  {
  }

  lemma ListedMeans(s: Accumulated)
    requires Listed(s)
    ensures forall k :: k in s.order ==> k in s.calls
  {
  }

  lemma NotYetSealed(s: Accumulated, t: Accumulated, n: nat)
    requires n < |s.order| && SealedUpTo(s, t, n)
    ensures s.order[n] in s.calls && s.order[n] in t.calls && t.calls[s.order[n]] == s.calls[s.order[n]]
  {
    assert s.order[n] in s.order;
  }

  lemma SameOrder(s: Accumulated, t: Accumulated, n: nat)
    requires n <= |s.order| && SealedUpTo(s, t, n)
    ensures t.order == s.order
  {
  }

  lemma AllSealed(s: Accumulated, t: Accumulated)
    requires Listed(s) && SealedUpTo(s, t, |s.order|)
    ensures t.order == s.order && t.calls.Keys == s.calls.Keys && forall k :: k in s.calls ==> Sealed(s.calls[k], t.calls[k])
  {
  }

  lemma ObservingKeepsValid(lang: Language, s: Accumulated, f: Input)
    requires Ready(s) && Listed(s) && f.Fragment?
    ensures Observed(lang, s, f).Advanced? ==> Ready(Observed(lang, s, f).state) && Listed(Observed(lang, s, f).state)
  {
    if Observed(lang, s, f).Advanced? {
      ApplyKeepsReady(lang, s, f);
      PutListed(s, f.key, EmitReady(lang, Learned(lang, CallAt(s, f.key), f)).call);
      hide Ready, Listed, Contradicts, EmitReady;
    }
  }

  lemma NoDeltas(id: string, name: string)
    ensures Deltas([], id, name) == []
  {
  }

  lemma DeltasNext(parts: seq<string>, from: nat, i: nat, id: string, name: string)
    requires from <= i < |parts|
    ensures Deltas(parts[from..i + 1], id, name) == Deltas(parts[from..i], id, name) + [Delta(id, name, parts[i])]
  {
    assert parts[from..i + 1] == parts[from..i] + [parts[i]];
  }

  /** The methods return nothing when the provider broke the protocol; the stream is over then. */
  class Accumulator {
    const lang: Language
    var calls: map<string, Call>
    var order: seq<string>
    var owners: map<string, string>

    constructor (lang: Language)
      ensures this.lang == lang && Valid() && View() == Nothing()
    {
      this.lang := lang;
      calls, order, owners := map[], [], map[];
    }

    ghost predicate Valid()
      reads this
    {
      Ready(View()) && Listed(View())
    }

    function View(): Accumulated
      reads this
    {
      Accumulated(calls, order, owners)
    }

    method Emit(c: Call) returns (e: Emission)
      requires c.emitted <= |c.parts|
      ensures e == EmitReady(lang, c)
    {
      hide Deltas;
      if c.id == "" { return Emitted(c, []); }
      NoDeltas(c.id, c.name);
      assert c.parts[c.emitted..c.emitted] == [];
      var events := if c.started then [] else [Start(c.id, c.name)];
      ghost var opening := events;
      for i := c.emitted to |c.parts|
        invariant events == opening + Deltas(c.parts[c.emitted..i], c.id, c.name)
      {
        DeltasNext(c.parts, c.emitted, i, c.id, c.name);
        events := events + [Delta(c.id, c.name, c.parts[i])];
      }
      assert c.parts[c.emitted..|c.parts|] == c.parts[c.emitted..];
      var flushed := c.(started := true, emitted := |c.parts|);
      if c.final.None? || c.ended { return Emitted(flushed, events); }
      if c.name == "" { return Refused; }
      var arguments := lang.parse(c.final.value);
      if arguments.None? { return Refused; }
      e := Emitted(flushed.(ended := true), events + [End(c.id, c.name, arguments.value)]);
    }

    method Observe(key: string, id: string, name: string, delta: string) returns (r: Option<seq<Event>>)
      requires Valid()
      modifies this
      ensures match Observed(lang, old(View()), Fragment(key, id, name, delta))
              case Failed => r.None?
              case Advanced(after, events) => r == Some(events) && View() == after && Valid()
    {
      hide EmitReady, Listed, Flushed, Ready;
      ghost var before, f := View(), Fragment(key, id, name, delta);
      FlushedIsBounded(before, key);
      ObservingKeepsValid(lang, before, f);
      var known := key in calls;
      var c := if known then calls[key] else NewCall();
      if c.ended && delta != "" { return None; }
      if id != "" {
        var normalized := lang.strip(id);
        if normalized == "" { return None; }
        if c.id != "" && c.id != normalized { return None; }
        if normalized in owners && owners[normalized] != key { return None; }
        c := c.(id := normalized);
      }
      if name != "" {
        var normalized := lang.strip(name);
        if c.name != "" && c.name != normalized { return None; }
        c := c.(name := normalized);
      }
      if delta != "" { c := c.(parts := c.parts + [delta]); }
      assert !Contradicts(lang, before, f) && c == Learned(lang, CallAt(before, key), f);
      hide Contradicts, Learned;
      var e := Emit(c);
      if e.Refused? { return None; }
      EmittedKeepsIdentity(lang, c);
      assert Observed(lang, before, f) == Advanced(Put(before, key, e.call), e.events);
      if !known { order := order + [key]; }
      calls := calls[key := e.call];
      if c.id != "" { owners := owners[c.id := key]; }
      r := Some(e.events);
    }

    method Finish(key: string, raw: string) returns (r: Option<seq<Event>>)
      requires Valid() && key in calls
      modifies this
      ensures match Finished(lang, old(View()), Complete(key, raw))
              case Failed => r.None?
              case Advanced(after, events) => r == Some(events) && View() == after && Valid()
    {
      ghost var before, f := View(), Complete(key, raw);
      var c := calls[key];
      if c.final.Some? { return if c.final.value == raw then Some([]) else None; }
      if Finished(lang, before, f).Advanced? {
        ApplyKeepsReady(lang, before, f);
        PutListed(before, key, EmitReady(lang, c.(final := Some(raw))).call);
      }
      var e := Emit(c.(final := Some(raw)));
      if e.Refused? { return None; }
      calls := calls[key := e.call];
      if c.id != "" { owners := owners[c.id := key]; }
      r := Some(e.events);
    }

    /** The fragment that comes with the final arguments is observed first. */
    method ArgumentsDone(key: string, raw: string, id: string, name: string) returns (r: Option<seq<Event>>)
      requires Valid()
      modifies this
      ensures match Observed(lang, old(View()), Fragment(key, id, name, ""))
              case Failed => r.None?
              case Advanced(middle, first) =>
                Ready(middle) && key in middle.calls
                && match Finished(lang, middle, Complete(key, raw))
                   case Failed => r.None?
                   case Advanced(after, events) => r == Some(first + events) && View() == after && Valid()
    {
      var first := Observe(key, id, name, "");
      if first.None? { return None; }
      var rest := Finish(key, raw);
      if rest.None? { return None; }
      r := Some(first.value + rest.value);
    }

    /** Treat the fragments buffered so far as the final arguments of every call without any. */
    method CompleteBuffered() returns (r: Option<seq<Event>>)
      requires Valid()
      modifies this
      ensures (forall k :: k in old(order) ==> k in old(calls))
              && match Continue(lang, old(View()), BufferedInputs(old(View()), old(order)))
                 case Failed => r.None?
                 case Advanced(after, events) => r == Some(events) && View() == after && Valid()
      ensures r.Some? ==> order == old(order) && calls.Keys == old(calls.Keys)
      ensures r.Some? ==> forall k :: k in old(calls) ==> Sealed(old(calls[k]), calls[k])
    {
      hide Observed, Finished, Concat, Ready, Listed, Sealed, SealedUpTo, Continue, BufferedInputs;
      ghost var was := View();
      ListedMeans(was);
      NothingBuffered(lang, was);
      assert order[..0] == [];
      var events: seq<Event> := [];
      for i := 0 to |order|
        invariant Valid() && order == was.order
        invariant Continue(lang, was, BufferedInputs(was, order[..i])) == Advanced(View(), events)
      {
        BufferedSeals(lang, was, i);
        NotYetSealed(was, View(), i);
        BufferedNext(was, order, i);
        var key := order[i];
        var c := calls[key];
        if c.final.None? {
          CompletingSeals(lang, View(), key);
          CompleteNext(lang, was, BufferedInputs(was, order[..i]), key, Concat(c.parts));
          var more := ArgumentsDone(key, Concat(c.parts), "", "");
          if more.None? {
            BufferedFails(lang, was, was.order, i + 1);
            return None;
          }
          BufferedSeals(lang, was, i + 1);
          SameOrder(was, View(), i + 1);
          events := events + more.value;
        } else {
          assert BufferedInputs(was, order[..i]) + [] == BufferedInputs(was, order[..i]);
        }
      }
      assert order[..|order|] == order;
      BufferedSeals(lang, was, |order|);
      AllSealed(was, View());
      r := Some(events);
    }

    /** Nothing is left to emit; what remains is to insist that every call ended. */
    method Finalize() returns (r: Option<seq<Event>>)
      requires Valid()
      modifies this
      ensures View() == old(View())
      ensures if AllEnded(View()) then r == Some([]) else r.None?
    {
      var events: seq<Event> := [];
      for i := 0 to |order|
        invariant View() == old(View()) && events == []
        invariant forall j :: 0 <= j < i ==> calls[order[j]].ended
      {
        assert order[i] in order;
        var c := calls[order[i]];
        assert Flushed(c);
        var e := Emit(c);
        assert Deltas([], c.id, c.name) == [];
        assert e == Emitted(c, []);
        events := events + e.events;
        calls := calls[order[i] := e.call];
        assert calls == old(calls);
        if !c.ended { return None; }
      }
      forall k | k in calls ensures calls[k].ended {
        assert k in order;
      }
      r := Some(events);
    }
  }
}
