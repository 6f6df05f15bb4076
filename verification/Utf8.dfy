/**
 * UTF-8 as section 3 of RFC 3629 defines it, with the two error handlers that scripts.py uses:
 * `encode(..., "replace")` writes `?` for a surrogate, `decode(..., "ignore")` drops what is no
 * character.
 */
module Utf8 {
  import opened Wrappers

  /** A character of a Python string: a code point, surrogates included. */
  type CodePoint = c: int | 0 <= c < 0x110000
  type Text = seq<CodePoint>
  type Byte = b: int | 0 <= b < 256

  predicate Surrogate(c: CodePoint) {
    0xD800 <= c < 0xE000
  }

  function EncodeOne(c: CodePoint): (bytes: seq<Byte>)
    ensures 1 <= |bytes| <= 4
  {
    if Surrogate(c) then [0x3F]
    else if c < 0x80 then [c]
    else if c < 0x800 then [0xC0 + c / 64, 0x80 + c % 64]
    else if c < 0x10000 then [0xE0 + c / 4096, 0x80 + c / 64 % 64, 0x80 + c % 64]
    else [0xF0 + c / 262144, 0x80 + c / 4096 % 64, 0x80 + c / 64 % 64, 0x80 + c % 64]
  }

  function Encode(text: Text): seq<Byte> {
    if text == [] then [] else EncodeOne(text[0]) + Encode(text[1..])
  }

  predicate Tail(b: Byte) {
    0x80 <= b < 0xC0
  }

  /** The bits so far, with the six of one more tail byte. */
  function Joined(high: int, tail: int): int {
    high * 64 + (tail - 0x80)
  }

  datatype Lead = Lead(c: CodePoint, bytes: nat)

  /** The well-formed character at the front, by the ranges of section 4 of RFC 3629: no overlong
      form, no surrogate, nothing above 0x10FFFF. */
  function Front(bytes: seq<Byte>): (lead: Option<Lead>)
    ensures lead.Some? ==> 1 <= lead.value.bytes <= |bytes|
  {
    if bytes == [] then None
    else
      var b := bytes[0];
      if b < 0x80 then Some(Lead(b, 1))
      else if 0xC2 <= b < 0xE0 then
        if |bytes| >= 2 && Tail(bytes[1]) then Some(Lead(Joined(b as int - 0xC0, bytes[1]), 2)) else None
      else if 0xE0 <= b < 0xF0 then
        if |bytes| >= 3 && Tail(bytes[1]) && Tail(bytes[2]) then
          var c := Joined(Joined(b as int - 0xE0, bytes[1]), bytes[2]);
          if c < 0x800 || Surrogate(c) then None else Some(Lead(c, 3))
        else None
      else if 0xF0 <= b < 0xF5 then
        if |bytes| >= 4 && Tail(bytes[1]) && Tail(bytes[2]) && Tail(bytes[3]) then
          var c := Joined(Joined(Joined(b as int - 0xF0, bytes[1]), bytes[2]), bytes[3]);
          if c < 0x10000 || c >= 0x110000 then None else Some(Lead(c, 4))
        else None
      else None
  }

  /** A byte that starts no character is dropped; the bytes that would have continued it start none
      either, so they go one by one. */
  function DecodeIgnore(bytes: seq<Byte>): Text
    decreases |bytes|
  {
    if bytes == [] then []
    else match Front(bytes)
      case None => DecodeIgnore(bytes[1..])
      case Some(lead) => [lead.c] + DecodeIgnore(bytes[lead.bytes..])
  }

  /** The text as it reads after encoding with "replace". */
  function Replaced(text: Text): (replaced: Text)
    ensures |replaced| == |text|
  {
    seq(|text|, i requires 0 <= i < |text| => if Surrogate(text[i]) then 0x3F else text[i])
  }

  lemma {:induction false} BitsJoin(c: nat)
    ensures Joined(c / 64, 0x80 + c % 64) == c
    ensures c / 64 / 64 == c / 4096 && c / 4096 / 64 == c / 262144
  {
  }

  lemma {:induction false} FrontOfShort(c: CodePoint, bytes: seq<Byte>)
    requires c < 0x800 && EncodeOne(c) <= bytes
    ensures Front(bytes) == Some(Lead(c, |EncodeOne(c)|))
  {
    BitsJoin(c);
  }

  lemma {:induction false} FrontOfThree(c: CodePoint, bytes: seq<Byte>)
    requires 0x800 <= c < 0x10000 && !Surrogate(c) && EncodeOne(c) <= bytes
    ensures Front(bytes) == Some(Lead(c, 3))
  {
    assert bytes[0] == 0xE0 + c / 4096 && bytes[1] == 0x80 + c / 64 % 64 && bytes[2] == 0x80 + c % 64;
    BitsJoin(c);
    BitsJoin(c / 64);
  }

  lemma {:induction false} FrontOfFour(c: CodePoint, bytes: seq<Byte>)
    requires 0x10000 <= c && EncodeOne(c) <= bytes
    ensures Front(bytes) == Some(Lead(c, 4))
  {
    assert bytes[0] == 0xF0 + c / 262144 && bytes[1] == 0x80 + c / 4096 % 64 && bytes[2] == 0x80 + c / 64 % 64
        && bytes[3] == 0x80 + c % 64;
    BitsJoin(c);
    BitsJoin(c / 64);
    BitsJoin(c / 4096);
  }

  lemma {:induction false} FrontOfEncoded(c: CodePoint, rest: seq<Byte>)
    ensures Front(EncodeOne(c) + rest) == Some(Lead(if Surrogate(c) then 0x3F else c, |EncodeOne(c)|))
  {
    var bytes := EncodeOne(c) + rest;
    if Surrogate(c) {
      FrontOfShort(0x3F, bytes);
    } else if c < 0x800 {
      FrontOfShort(c, bytes);
    } else if c < 0x10000 {
      FrontOfThree(c, bytes);
    } else {
      FrontOfFour(c, bytes);
    }
  }

  /** What is left of a character cut short decodes to nothing. */
  lemma {:induction false} CutCharacterIsDropped(c: CodePoint, k: nat)
    requires k < |EncodeOne(c)|
    ensures DecodeIgnore(EncodeOne(c)[..k]) == []
  {
    var e := EncodeOne(c);
    if k > 0 {
      TailsDecodeToNothing(e[1..k]);
      assert e[..k][1..] == e[1..k];
    }
  }

  lemma {:induction false} TailsDecodeToNothing(bytes: seq<Byte>)
    requires forall i :: 0 <= i < |bytes| ==> Tail(bytes[i])
    ensures DecodeIgnore(bytes) == []
  {
    if bytes != [] {
      TailsDecodeToNothing(bytes[1..]);
    }
  }

  lemma {:induction false} EncodeConcat(a: Text, b: Text)
    ensures Encode(a + b) == Encode(a) + Encode(b)
  {
    if a == [] {
      assert a + b == b;
    } else {
      assert (a + b)[1..] == a[1..] + b;
      EncodeConcat(a[1..], b);
    }
  }

  lemma {:induction false} PrefixIsNoLonger(text: Text, n: nat)
    requires n <= |text|
    ensures |Encode(text[..n])| <= |Encode(text)|
  {
    assert text == text[..n] + text[n..];
    EncodeConcat(text[..n], text[n..]);
  }

  lemma {:induction false} EncodeReplaced(text: Text)
    ensures Encode(Replaced(text)) == Encode(text)
  {
    if text != [] {
      assert Replaced(text)[1..] == Replaced(text[1..]);
      EncodeReplaced(text[1..]);
    }
  }

  /** How many characters of the text fit into `max` bytes. */
  function Fitting(text: Text, max: nat): (n: nat)
    ensures n <= |text|
  {
    if text == [] || |EncodeOne(text[0])| > max then 0 else 1 + Fitting(text[1..], max - |EncodeOne(text[0])|)
  }

  /** The first `n` characters fit, and no more do. */
  predicate Longest(text: Text, n: nat, max: nat) {
    && n <= |text| && |Encode(text[..n])| <= max
    && (n < |text| ==> |Encode(text[..n + 1])| > max)
  }

  lemma {:induction false} FittingIsLongest(text: Text, max: nat)
    ensures Longest(text, Fitting(text, max), max)
  {
    if text != [] && |EncodeOne(text[0])| <= max {
      var n := Fitting(text[1..], max - |EncodeOne(text[0])|);
      FittingIsLongest(text[1..], max - |EncodeOne(text[0])|);
      assert text[..n + 1][1..] == text[1..][..n];
      if n + 1 < |text| {
        assert text[..n + 2][1..] == text[1..][..n + 1];
      }
    } else if text != [] {
      assert text[..1][1..] == [];
    }
  }

  /** Decoding the first `max` bytes gives the characters that fit, the one cut short dropped. */
  lemma {:induction false} DecodeOfPrefix(text: Text, max: nat)
    requires max <= |Encode(text)|
    ensures DecodeIgnore(Encode(text)[..max]) == Replaced(text)[..Fitting(text, max)]
  {
    if text != [] {
      var e := EncodeOne(text[0]);
      var rest := Encode(text[1..]);
      if |e| > max {
        assert Encode(text)[..max] == e[..max];
        CutCharacterIsDropped(text[0], max);
      } else {
        PrefixOfEncoded(text, max - |e|);
        DecodeFirst(text[0], rest[..max - |e|]);
        DecodeOfPrefix(text[1..], max - |e|);
        PrefixOfReplaced(text, Fitting(text[1..], max - |e|));
      }
    }
  }

  lemma {:induction false} PrefixOfEncoded(text: Text, n: nat)
    requires text != [] && n <= |Encode(text[1..])|
    ensures Encode(text)[..|EncodeOne(text[0])| + n] == EncodeOne(text[0]) + Encode(text[1..])[..n]
  {
  }

  lemma {:induction false} PrefixOfReplaced(text: Text, n: nat)
    requires text != [] && n < |text|
    ensures Replaced(text)[..1 + n] == [if Surrogate(text[0]) then 0x3F else text[0]] + Replaced(text[1..])[..n]
  {
  }

  lemma {:induction false} DecodeFirst(c: CodePoint, rest: seq<Byte>)
    ensures DecodeIgnore(EncodeOne(c) + rest) == [if Surrogate(c) then 0x3F else c] + DecodeIgnore(rest)
  {
    FrontOfEncoded(c, rest);
    assert (EncodeOne(c) + rest)[|EncodeOne(c)|..] == rest;
  }

  /** The round trip. */
  lemma {:induction false} DecodesWhatWasEncoded(text: Text)
    ensures DecodeIgnore(Encode(text)) == Replaced(text)
  {
    DecodeOfPrefix(text, |Encode(text)|);
    FittingIsLongest(text, |Encode(text)|);
    assert Encode(text)[..|Encode(text)|] == Encode(text);
    var n := Fitting(text, |Encode(text)|);
    if n < |text| {
      PrefixIsNoLonger(text, n + 1);
    }
    assert Replaced(text)[..|text|] == Replaced(text);
  }

  /** `_truncate_utf8`. */
  function TruncateUtf8(text: Text, max: nat): Text {
    var encoded := Encode(text);
    if |encoded| <= max then text else DecodeIgnore(encoded[..max])
  }

  /** What is kept is the longest prefix of the text that fits, surrogates read as `?`; a text that
      fits is kept as it is. */
  lemma {:induction false} TruncatesToLongestPrefix(text: Text, max: nat)
    ensures exists n: nat :: Longest(text, n, max) && Replaced(TruncateUtf8(text, max)) == Replaced(text)[..n]
    ensures |Encode(TruncateUtf8(text, max))| <= max
    ensures TruncateUtf8(text, max) == text <==> |Encode(text)| <= max
    ensures |Encode(text)| > max ==> |Encode(TruncateUtf8(text, max))| + 3 >= max
  {
    var n := Fitting(text, max);
    FittingIsLongest(text, max);
    assert text[..|text|] == text;
    if |Encode(text)| <= max {
      assert Replaced(text)[..|text|] == Replaced(text);
      assert Longest(text, |text|, max);
    } else {
      DecodeOfPrefix(text, max);
      var kept := TruncateUtf8(text, max);
      assert kept == Replaced(text[..n]) && Replaced(kept) == kept;
      EncodeReplaced(text[..n]);
      assert n < |text| && text[..n + 1] == text[..n] + [text[n]];
      EncodeConcat(text[..n], [text[n]]);
    }
  }

  lemma {:induction false} EncodeGrows(text: Text, m: nat, n: nat)
    requires m < n <= |text|
    ensures |Encode(text[..m])| < |Encode(text[..n])|
  {
    assert text[..n] == text[..m] + ([text[m]] + text[m + 1..n]);
    EncodeConcat(text[..m], [text[m]] + text[m + 1..n]);
  }

  /** The longest prefix that fits is one only: a text that does not fit is cut to it. */
  lemma {:induction false} OnlyLongest(text: Text, n: nat, max: nat)
    requires n < |text| && Longest(text, n, max) && |Encode(text)| > max
    ensures TruncateUtf8(text, max) == Replaced(text[..n])
  {
    var m := Fitting(text, max);
    FittingIsLongest(text, max);
    assert text[..|text|] == text;
    if m < n {
      if m + 1 < n {
        EncodeGrows(text, m + 1, n);
      }
    } else if n < m {
      if n + 1 < m {
        EncodeGrows(text, n + 1, m);
      }
    }
    DecodeOfPrefix(text, max);
    assert Replaced(text)[..n] == Replaced(text[..n]);
  }
}
