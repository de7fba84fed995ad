/** Cutting text to a number of UTF-8 bytes (RFC 3629, section 3): encode, cut, decode and ignore
    what is broken.  The result is the longest prefix of whole code points that fits. */
module Utf8Truncation {
  import opened Common

  type Byte = b: int | 0 <= b < 256

  /** A Unicode scalar value: a code point that is no surrogate. */
  type Scalar = c: int | 0 <= c < 0xD800 || 0xE000 <= c < 0x110000

  type Text = seq<Scalar>

  function Tail(x: int): (b: Byte)
    ensures 0x80 <= b < 0xC0
  {
    0x80 + x % 64
  }

  function Encode(c: Scalar): (bytes: seq<Byte>)
    ensures 1 <= |bytes| <= 4
  {
    if c < 0x80 then [c]
    else if c < 0x800 then [0xC0 + c / 64, Tail(c)]
    else if c < 0x10000 then [0xE0 + c / 4096, Tail(c / 64), Tail(c)]
    else [0xF0 + c / 262144, Tail(c / 4096), Tail(c / 64), Tail(c)]
  }

  function EncodeAll(text: Text): seq<Byte> {
    if text == [] then [] else Encode(text[0]) + EncodeAll(text[1..])
  }

  predicate IsTail(b: Byte) {
    0x80 <= b < 0xC0
  }

  /** How many bytes a sequence has that starts with this byte; zero when no sequence does. */
  function SequenceLength(first: Byte): nat {
    if first < 0x80 then 1
    else if 0xC2 <= first < 0xE0 then 2
    else if 0xE0 <= first < 0xF0 then 3
    else if 0xF0 <= first < 0xF5 then 4
    else 0
  }

  function Digit(b: Byte, base: int): int {
    b as int - base
  }

  function Decoded(bytes: seq<Byte>): int
    requires 1 <= |bytes| <= 4
  {
    if |bytes| == 1 then bytes[0]
    else if |bytes| == 2 then Digit(bytes[0], 0xC0) * 64 + Digit(bytes[1], 0x80)
    else if |bytes| == 3 then Digit(bytes[0], 0xE0) * 4096 + Digit(bytes[1], 0x80) * 64 + Digit(bytes[2], 0x80)
    else Digit(bytes[0], 0xF0) * 262144 + Digit(bytes[1], 0x80) * 4096 + Digit(bytes[2], 0x80) * 64 + Digit(bytes[3], 0x80)
  }

  /** The smallest code point that needs this many bytes; anything below is overlong. */
  function Least(length: nat): int {
    if length <= 1 then 0 else if length == 2 then 0x80 else if length == 3 then 0x800 else 0x10000
  }

  /** The code point at the front of the bytes, when a well-formed sequence stands there. */
  function Front(bytes: seq<Byte>): (r: Option<Scalar>)
    ensures r.Some? ==> bytes != [] && 1 <= SequenceLength(bytes[0]) <= |bytes|
  {
    if bytes == [] then None
    else
      var n := SequenceLength(bytes[0]);
      if n == 0 || n > |bytes| || !(forall k :: 1 <= k < n ==> IsTail(bytes[k])) then None
      else
        var c := Decoded(bytes[..n]);
        if c < Least(n) || 0xD800 <= c < 0xE000 || c >= 0x110000 then None else Some(c)
  }

  /** Decoding that skips every byte at which no well-formed sequence starts. */
  function DecodeIgnoring(bytes: seq<Byte>): Text
    decreases |bytes|
  {
    if bytes == [] then []
    else
      var front := Front(bytes);
      if front.Some? then [front.value] + DecodeIgnoring(bytes[SequenceLength(bytes[0])..])
      else DecodeIgnoring(bytes[1..])
  }

  // ---------------------------------------------------------------- one code point

  lemma Digits(c: int)
    requires c >= 0
    ensures (c / 64) / 64 == c / 4096 && (c / 4096) / 64 == c / 262144
    ensures c == (c / 64) * 64 + c % 64
    ensures c == (c / 4096) * 4096 + (c / 64) % 64 * 64 + c % 64
    ensures c == (c / 262144) * 262144 + (c / 4096) % 64 * 4096 + (c / 64) % 64 * 64 + c % 64
  {
  }

  lemma EncodeStarts(c: Scalar)
    ensures SequenceLength(Encode(c)[0]) == |Encode(c)|
    ensures forall k :: 1 <= k < |Encode(c)| ==> IsTail(Encode(c)[k])
    ensures Decoded(Encode(c)) == c >= Least(|Encode(c)|)
  {
    Digits(c);
  }

  lemma FrontOfEncoded(c: Scalar, rest: seq<Byte>)
    ensures Front(Encode(c) + rest) == Some(c)
  {
    EncodeStarts(c);
    var bytes := Encode(c) + rest;
    assert bytes[..|Encode(c)|] == Encode(c);
    hide Encode, Decoded;
  }

  lemma DecodeNext(c: Scalar, rest: seq<Byte>)
    ensures DecodeIgnoring(Encode(c) + rest) == [c] + DecodeIgnoring(rest)
  {
    FrontOfEncoded(c, rest);
    EncodeStarts(c);
    assert (Encode(c) + rest)[|Encode(c)|..] == rest;
    hide Encode, Front;
  }

  lemma {:induction false} TailsAreIgnored(bytes: seq<Byte>)
    requires forall k :: 0 <= k < |bytes| ==> IsTail(bytes[k])
    ensures DecodeIgnoring(bytes) == []
  {
    if bytes != [] { TailsAreIgnored(bytes[1..]); }
  }

  /** A sequence that was cut short leaves nothing behind. */
  lemma CutIsIgnored(c: Scalar, k: nat)
    requires k < |Encode(c)|
    ensures DecodeIgnoring(Encode(c)[..k]) == []
  {
    EncodeStarts(c);
    hide Encode, Decoded;
    if k > 0 {
      var cut := Encode(c)[..k];
      assert Front(cut).None?;
      TailsAreIgnored(cut[1..]);
    }
  }

  // ---------------------------------------------------------------- whole texts

  /** Decoding undoes encoding. */
  lemma {:induction false} RoundTrip(text: Text)
    ensures DecodeIgnoring(EncodeAll(text)) == text
  {
    if text != [] {
      RoundTrip(text[1..]);
      DecodeNext(text[0], EncodeAll(text[1..]));
    }
  }

  lemma {:induction false} EncodeConcat(a: Text, b: Text)
    ensures EncodeAll(a + b) == EncodeAll(a) + EncodeAll(b)
  {
    if a == [] {
      assert a + b == b;
    } else {
      assert (a + b)[1..] == a[1..] + b;
      EncodeConcat(a[1..], b);
    }
  }

  /** How many code points fit into a number of bytes. */
  predicate FitsExactly(text: Text, bytes: nat, n: nat) {
    && n <= |text| && |EncodeAll(text[..n])| <= bytes
    && (n < |text| ==> |EncodeAll(text[..n + 1])| > bytes)
  }

  function Fitting(text: Text, bytes: nat): (n: nat)
    ensures n <= |text|
  {
    if text == [] || |Encode(text[0])| > bytes then 0 else 1 + Fitting(text[1..], bytes - |Encode(text[0])|)
  }

  lemma {:induction false} FittingFits(text: Text, bytes: nat)
    ensures FitsExactly(text, bytes, Fitting(text, bytes))
  {
    hide Encode;
    if text != [] && |Encode(text[0])| <= bytes {
      var n := Fitting(text[1..], bytes - |Encode(text[0])|);
      FittingFits(text[1..], bytes - |Encode(text[0])|);
      assert text[..n + 1][1..] == text[1..][..n];
      if n + 1 < |text| { assert text[..n + 2][1..] == text[1..][..n + 1]; }
    } else if text != [] {
      assert text[..1][1..] == [];
    }
  }

  /** Cutting the encoded bytes and decoding what is left is taking the prefix that fits. */
  lemma {:induction false} CutDecodes(text: Text, bytes: nat)
    requires bytes <= |EncodeAll(text)|
    ensures DecodeIgnoring(EncodeAll(text)[..bytes]) == text[..Fitting(text, bytes)]
  {
    hide Encode;
    if text != [] {
      var head, rest := Encode(text[0]), EncodeAll(text[1..]);
      if |head| <= bytes {
        CutDecodes(text[1..], bytes - |head|);
        assert EncodeAll(text)[..bytes] == head + rest[..bytes - |head|];
        DecodeNext(text[0], rest[..bytes - |head|]);
        var n := Fitting(text[1..], bytes - |head|);
        assert text[..n + 1] == [text[0]] + text[1..][..n];
      } else {
        assert EncodeAll(text)[..bytes] == head[..bytes];
        CutIsIgnored(text[0], bytes);
      }
    }
  }

  // ---------------------------------------------------------------- truncation

  /** The code: encode, cut, decode, and put the suffix behind. */
  function TruncateUtf8(text: Text, maxBytes: int, suffix: Text): Text {
    var limit: nat := if maxBytes > 0 then maxBytes else 0;
    var tail := EncodeAll(suffix);
    if |tail| > limit then DecodeIgnoring(tail[..limit])
    else if |EncodeAll(text)| + |tail| <= limit then text + suffix
    else DecodeIgnoring(EncodeAll(text)[..limit - |tail|]) + suffix
  }

  /** What it means: everything if everything fits; otherwise the longest prefix of whole code points
      that leaves room for the suffix; and when not even the suffix fits, the longest prefix of that.
      The limit is never exceeded. */
  lemma TruncationIsLongestPrefix(text: Text, maxBytes: int, suffix: Text)
    ensures var limit: nat := if maxBytes > 0 then maxBytes else 0;
            var room := limit - |EncodeAll(suffix)|;
            var r := TruncateUtf8(text, maxBytes, suffix);
            && |EncodeAll(r)| <= limit
            && (room < 0 ==> exists n: nat :: FitsExactly(suffix, limit, n) && r == suffix[..n])
            && (room >= 0 ==> exists n: nat :: FitsExactly(text, room, n) && r == text[..n] + suffix)
  {
    hide DecodeIgnoring, FitsExactly;
    var limit: nat := if maxBytes > 0 then maxBytes else 0;
    var tail := EncodeAll(suffix);
    if |tail| > limit {
      CutDecodes(suffix, limit);
      FittingFits(suffix, limit);
      PrefixIsWithin(suffix, limit, Fitting(suffix, limit));
    } else if |EncodeAll(text)| + |tail| <= limit {
      AllFits(text, limit - |tail|);
      EncodeConcat(text, suffix);
    } else {
      var room := limit - |tail|;
      CutDecodes(text, room);
      FittingFits(text, room);
      PrefixIsWithin(text, room, Fitting(text, room));
      EncodeConcat(text[..Fitting(text, room)], suffix);
    }
  }

  lemma PrefixIsWithin(text: Text, bytes: nat, n: nat)
    requires FitsExactly(text, bytes, n)
    ensures n <= |text| && |EncodeAll(text[..n])| <= bytes
  {
  }

  lemma AllFits(text: Text, bytes: nat)
    requires |EncodeAll(text)| <= bytes
    ensures FitsExactly(text, bytes, |text|) && text[..|text|] == text
  {
    assert text[..|text|] == text;
  }

}
