/** Fitting a tool result into a number of serialised bytes.  Strings are written as JSON strings
    (RFC 8259, section 7), so every code point has a cost of its own. */
module ResultFitting {
  import opened Common
  import opened Utf8Truncation

  function HexDigit(d: int): Byte
    requires 0 <= d < 16
  {
    if d < 10 then 0x30 + d else 0x61 + d - 10
  }

  /** One code point inside a JSON string: quotes, backslashes and control characters are escaped, and
      everything else is written as it is. */
  function Escape(c: Scalar): seq<Byte> {
    if c == 0x22 then [0x5C, 0x22]
    else if c == 0x5C then [0x5C, 0x5C]
    else if c == 0x08 then [0x5C, 0x62]
    else if c == 0x09 then [0x5C, 0x74]
    else if c == 0x0A then [0x5C, 0x6E]
    else if c == 0x0C then [0x5C, 0x66]
    else if c == 0x0D then [0x5C, 0x72]
    else if c < 0x20 then [0x5C, 0x75, 0x30, 0x30, HexDigit(c / 16), HexDigit(c % 16)]
    else Encode(c)
  }

  function EscapeAll(text: Text): seq<Byte> {
    if text == [] then [] else EscapeAll(text[..|text| - 1]) + Escape(text[|text| - 1])
  }

  function Cost(c: Scalar): (n: nat)
    ensures n >= 1
  {
    |Escape(c)|
  }

  /** Bytes of a text inside a JSON string, without the quotes. */
  function Payload(text: Text): nat {
    if text == [] then 0 else Payload(text[..|text| - 1]) + Cost(text[|text| - 1])
  }

  /** The length of the written string, quotes aside, is the sum of the costs of its code points. */
  lemma {:induction false} PayloadIsLength(text: Text)
    ensures |EscapeAll(text)| == Payload(text)
  {
    hide Escape;
    if text != [] { PayloadIsLength(text[..|text| - 1]); }
  }

  // ---------------------------------------------------------------- reading a string back

  function HexValue(b: Byte): (n: int)
    ensures -1 <= n < 16
  {
    if 0x30 <= b < 0x3A then b - 0x30
    else if 0x61 <= b < 0x67 then b - 0x61 + 10
    else if 0x41 <= b < 0x47 then b - 0x41 + 10
    else -1
  }

  /** The code point that a short escape stands for. */
  function ShortEscape(b: Byte): Option<Scalar> {
    if b == 0x22 || b == 0x5C || b == 0x2F then Some(b)
    else if b == 0x62 then Some(0x08)
    else if b == 0x66 then Some(0x0C)
    else if b == 0x6E then Some(0x0A)
    else if b == 0x72 then Some(0x0D)
    else if b == 0x74 then Some(0x09)
    else None
  }

  datatype Piece = Piece(value: Scalar, length: nat)

  /** The first code point of the inside of a JSON string: escaped, or as it is.  A bare quote ends the
      string, and bare control characters are not allowed. */
  function ReadOne(bytes: seq<Byte>): (r: Option<Piece>)
    ensures r.Some? ==> 1 <= r.value.length <= |bytes|
  {
    if bytes == [] || bytes[0] == 0x22 || bytes[0] < 0x20 then None
    else if bytes[0] != 0x5C then
      var front := Front(bytes);
      if front.Some? then Some(Piece(front.value, SequenceLength(bytes[0]))) else None
    else if |bytes| < 2 then None
    else if bytes[1] == 0x75 then
      if |bytes| < 6 || (exists k :: 2 <= k < 6 && HexValue(bytes[k]) < 0) then None
      else
        var n := HexValue(bytes[2]) * 4096 + HexValue(bytes[3]) * 256 + HexValue(bytes[4]) * 16 + HexValue(bytes[5]);
        if 0xD800 <= n < 0xE000 then None else Some(Piece(n, 6))
    else
      var short := ShortEscape(bytes[1]);
      if short.Some? then Some(Piece(short.value, 2)) else None
  }

  function ReadAll(bytes: seq<Byte>): Option<Text>
    decreases |bytes|
  {
    if bytes == [] then Some([])
    else
      var first := ReadOne(bytes);
      if first.None? then None
      else
        var rest := ReadAll(bytes[first.value.length..]);
        if rest.None? then None else Some([first.value.value] + rest.value)
  }

  lemma HexDigitsRead(d: int)
    requires 0 <= d < 16
    ensures HexValue(HexDigit(d)) == d
  {
  }

  lemma ControlsRead(c: Scalar, rest: seq<Byte>)
    requires c < 0x20
    ensures ReadOne(Escape(c) + rest) == Some(Piece(c, |Escape(c)|))
  {
    HexDigitsRead(c / 16);
    HexDigitsRead(c % 16);
    hide HexDigit, Front;
  }

  lemma PlainReads(c: Scalar, rest: seq<Byte>)
    requires c >= 0x20 && c != 0x22 && c != 0x5C
    ensures ReadOne(Escape(c) + rest) == Some(Piece(c, |Escape(c)|))
  {
    FrontOfEncoded(c, rest);
    EncodeStarts(c);
    FirstByte(c);
    hide Encode, Front, Decoded;
  }

  lemma FirstByte(c: Scalar)
    ensures if c < 0x80 then Encode(c)[0] == c else Encode(c)[0] >= 0x80
  {
  }

  lemma EscapeReads(c: Scalar, rest: seq<Byte>)
    ensures ReadOne(Escape(c) + rest) == Some(Piece(c, |Escape(c)|))
  {
    if c < 0x20 {
      ControlsRead(c, rest);
    } else if c != 0x22 && c != 0x5C {
      PlainReads(c, rest);
    }
  }

  lemma {:induction false} EscapeFirst(text: Text)
    requires text != []
    ensures EscapeAll(text) == Escape(text[0]) + EscapeAll(text[1..])
  {
    hide Escape;
    var n := |text| - 1;
    if n == 0 {
      assert EscapeAll(text[..0]) == [] && EscapeAll(text[1..]) == [];
    } else {
      EscapeFirst(text[..n]);
      assert text[..n][1..] == text[1..][..n - 1];
    }
  }

  /** Reading a written string back gives the text (RFC 8259, section 7). */
  lemma {:induction false} WrittenReads(text: Text)
    ensures ReadAll(EscapeAll(text)) == Some(text)
    decreases |text|
  {
    hide Escape, ReadOne;
    if text != [] {
      EscapeFirst(text);
      EscapeReads(text[0], EscapeAll(text[1..]));
      var bytes, n := EscapeAll(text), |Escape(text[0])|;
      assert bytes[n..] == EscapeAll(text[1..]);
      assert ReadOne(bytes) == Some(Piece(text[0], n));
      WrittenReads(text[1..]);
      assert text == [text[0]] + text[1..];
    }
  }

  lemma {:induction false} PayloadConcat(a: Text, b: Text)
    ensures Payload(a + b) == Payload(a) + Payload(b)
  {
    hide Cost;
    if b == [] {
      assert a + b == a;
    } else {
      assert (a + b)[..|a + b| - 1] == a + b[..|b| - 1];
      PayloadConcat(a, b[..|b| - 1]);
    }
  }

  lemma PrefixCostsLess(text: Text, n: nat, m: nat)
    requires n <= m <= |text|
    ensures Payload(text[..n]) <= Payload(text[..m])
  {
    assert text[..m] == text[..n] + text[n..m];
    PayloadConcat(text[..n], text[n..m]);
  }

  /** A prefix with the suffix behind it, the longest that is within the limit. */
  predicate LongestWithin(text: Text, suffix: Text, limit: int, n: nat) {
    && n <= |text| && Payload(text[..n] + suffix) <= limit
    && forall m :: n < m <= |text| ==> Payload(text[..m] + suffix) > limit
  }

  function BoundedSuffix(suffix: Text, limit: int): Text {
    if Payload(suffix) <= limit then suffix else []
  }

  /** Binary search for the longest prefix that fits together with the suffix; the suffix is dropped
      when not even it fits. */
  method TruncatePayload(text: Text, limit: int, suffix: Text) returns (best: Text)
    ensures Payload(text) <= limit ==> best == text
    ensures Payload(text) > limit >= 0 ==>
              exists n: nat :: LongestWithin(text, BoundedSuffix(suffix, limit), limit, n)
                               && best == text[..n] + BoundedSuffix(suffix, limit)
    ensures limit >= 0 ==> Payload(best) <= limit
    ensures limit < 0 ==> best == []
  {
    hide Payload;
    NoPayload();
    if Payload(text) <= limit { return text; }
    var bounded := BoundedSuffix(suffix, limit);
    var low, high := 0, |text|;
    best := bounded;
    assert [] + bounded == bounded;
    while low <= high
      invariant 0 <= low <= |text| + 1 && -1 <= high <= |text| && low <= high + 1
      invariant low == 0 ==> best == bounded
      invariant low > 0 ==> best == text[..low - 1] + bounded && Payload(best) <= limit
      invariant forall m :: high < m <= |text| ==> Payload(text[..m] + bounded) > limit
    {
      var midpoint := (low + high) / 2;
      var candidate := text[..midpoint] + bounded;
      if Payload(candidate) <= limit {
        best := candidate;
        low := midpoint + 1;
      } else {
        forall m | midpoint <= m <= |text| ensures Payload(text[..m] + bounded) > limit {
          LongerCostsMore(text, bounded, midpoint, m);
        }
        high := midpoint - 1;
      }
    }
    if low == 0 {
      assert text[..0] + bounded == bounded;
    } else {
      assert LongestWithin(text, bounded, limit, low - 1);
    }
  }

  lemma NoPayload()
    ensures Payload([]) == 0
  {
  }

  lemma LongerCostsMore(text: Text, suffix: Text, n: nat, m: nat)
    requires n <= m <= |text|
    ensures Payload(text[..n] + suffix) <= Payload(text[..m] + suffix)
  {
    PrefixCostsLess(text, n, m);
    PayloadConcat(text[..n], suffix);
    PayloadConcat(text[..m], suffix);
  }

  // ---------------------------------------------------------------- whole results

  /** A tool result: its text, what its parts add to the serialisation, and what all the rest of it
      takes, with empty text and no parts. */
  datatype ToolResult = ToolResult(rest: nat, content: Text, final: Option<Text>, parts: nat)

  /** A missing final output is written as `null`, a present one in quotes; each costs what it costs. */
  function Serialised(r: ToolResult): nat {
    r.rest + Payload(r.content) + (if r.final.Some? then 2 + Payload(r.final.value) else 4) + r.parts
  }

  /** The envelope: the result without any text or parts. */
  function Bare(r: ToolResult): ToolResult {
    r.(content := [], final := if r.final.Some? then Some([]) else None, parts := 0)
  }

  ghost predicate Shortened(before: Text, after: Text, notice: Text, room: int) {
    if Payload(before) <= room then after == before
    else exists n: nat :: LongestWithin(before, BoundedSuffix(notice, room), room, n)
                          && after == before[..n] + BoundedSuffix(notice, room)
  }

  /** The notices that say that a text was cut. */
  datatype Notices = Notices(final: Text, content: Text)

  /** A result fitted into a limit: itself if it fits, its envelope alone if not even that fits, and
      otherwise its envelope with the longest texts that fit, the final output first. */
  ghost predicate FittedTo(r: ToolResult, limit: int, notices: Notices, fitted: ToolResult) {
    var room := limit - Serialised(Bare(r));
    if Serialised(r) <= limit then fitted == r
    else if room < 0 then fitted == Bare(r)
    else
      && fitted.rest == r.rest && fitted.parts == 0 && (fitted.final.Some? <==> r.final.Some?)
      && (r.final.Some? ==> Shortened(r.final.value, fitted.final.value, notices.final, room))
      && Shortened(r.content, fitted.content, notices.content,
                   room - if r.final.Some? then Payload(fitted.final.value) else 0)
  }

  /** Fit a result into a limit.  The result is within the limit exactly when it was before, or its
      envelope alone is. */
  method FitResult(r: ToolResult, limit: int, notices: Notices) returns (fitted: ToolResult)
    ensures FittedTo(r, limit, notices, fitted)
    ensures Serialised(fitted) <= limit <==> Serialised(r) <= limit || Serialised(Bare(r)) <= limit
  {
    hide Payload, LongestWithin, BoundedSuffix;
    NoPayload();
    if Serialised(r) <= limit { return r; }
    var bare := Bare(r);
    var available := if limit - Serialised(bare) > 0 then limit - Serialised(bare) else 0;
    var final: Option<Text> := None;
    if r.final.Some? {
      var text := TruncatePayload(r.final.value, available, notices.final);
      NothingFitsInNothing(text);
      final := Some(text);
      available := available - Payload(text);
    }
    var content := TruncatePayload(r.content, available, notices.content);
    NothingFitsInNothing(content);
    fitted := r.(content := content, final := final, parts := 0);
  }

  // ---------------------------------------------------------------- bounding and archiving

  /** A text cut to a number of bytes, if it is longer. */
  function Capped(text: Text, limit: int, marker: Text): Text {
    if |EncodeAll(text)| > limit then TruncateUtf8(text, limit, marker) else text
  }

  /** The limits on the content, the final output, the whole result, and what is kept inline. */
  datatype Caps = Caps(content: int, final: int, total: int, inline: int)

  /** What an archived result looks like: its envelope with the artifact id, a link after the content,
      and one part that names the artifact. */
  datatype Archive = Archive(rest: nat, part: nat, link: Text)

  function CappedResult(r: ToolResult, caps: Caps, markers: Notices, parts: Text -> nat): ToolResult {
    var content := Capped(r.content, caps.content, markers.content);
    r.(content := content, parts := parts(content),
       final := if r.final.Some? then Some(Capped(r.final.value, caps.final, markers.final)) else None)
  }

  function Archived(r: ToolResult, caps: Caps, archive: Archive): ToolResult {
    r.(rest := archive.rest, content := TruncateUtf8(r.content, caps.inline, archive.link), parts := archive.part)
  }

  /** Bound a result: cap its texts, fit it, and archive it when it is too long to be kept inline; the
      archived form is fitted again.  What is stored in the archive is the whole first fit. */
  method BoundResult(r: ToolResult, caps: Caps, markers: Notices, notices: Notices, parts: Text -> nat, archive: Archive)
    returns (bounded: ToolResult, stored: Option<ToolResult>, first: ToolResult)
    ensures FittedTo(CappedResult(r, caps, markers, parts), caps.total, notices, first)
    ensures Serialised(first) <= caps.inline ==> stored == None && bounded == first
    ensures Serialised(first) > caps.inline ==>
              stored == Some(first) && FittedTo(Archived(first, caps, archive), caps.total, notices, bounded)
    ensures Serialised(bounded) <= caps.total <==>
              if stored.Some? then FitsBare(Archived(first, caps, archive), caps.total)
              else FitsBare(CappedResult(r, caps, markers, parts), caps.total)
  {
    hide Payload, FittedTo;
    var fitted := FitResult(CappedResult(r, caps, markers, parts), caps.total, notices);
    first := fitted;
    if Serialised(fitted) <= caps.inline { return fitted, None, first; }
    stored := Some(fitted);
    bounded := FitResult(Archived(fitted, caps, archive), caps.total, notices);
  }

  /** A result that can be fitted: it fits as it is, or its envelope does. */
  predicate FitsBare(r: ToolResult, limit: int) {
    Serialised(r) <= limit || Serialised(Bare(r)) <= limit
  }

  lemma {:induction false} NothingFitsInNothing(text: Text)
    ensures Payload(text) <= 0 ==> text == []
  {
  }
}
