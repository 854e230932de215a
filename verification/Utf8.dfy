/** UTF-8 (section 3 of RFC 3629): encoding, the decoder that ignores errors, and the
    truncation of error texts on a character boundary. */
module Utf8 {
  import opened Message

  /** Text is a sequence of code points; lone surrogates cannot be encoded. */
  type CodePoint = x: int | 0 <= x < 0x11_0000
  type Scalar = x: CodePoint | x < 0xD800 || x > 0xDFFF witness 0

  predicate Encodable(text: seq<CodePoint>) {
    forall i :: 0 <= i < |text| ==> text[i] < 0xD800 || text[i] > 0xDFFF
  }

  function EncodeOne(c: Scalar): (b: Bytes)
    ensures 1 <= |b| <= 4
  {
    if c < 0x80 then [c]
    else if c < 0x800 then [0xC0 + c / 64, 0x80 + c % 64]
    else if c < 0x1_0000 then [0xE0 + c / 64 / 64, 0x80 + c / 64 % 64, 0x80 + c % 64]
    else [0xF0 + c / 64 / 64 / 64, 0x80 + c / 64 / 64 % 64, 0x80 + c / 64 % 64, 0x80 + c % 64]
  }

  function Encode(text: seq<Scalar>): Bytes {
    if text == [] then [] else EncodeOne(text[0]) + Encode(text[1..])
  }

  predicate Continuation(b: Byte) {
    0x80 <= b < 0xC0
  }

  /** What the decoder does at the front of `s`: a character of `n` bytes, or an error that
      covers `n` bytes. */
  datatype Step = Good(c: Scalar, n: nat) | Bad(n: nat)

  /** The second byte's range depends on the first: no overlong forms, no surrogates,
      nothing above the last code point. */
  predicate SecondOk(b0: Byte, b1: Byte) {
    && Continuation(b1)
    && (b0 == 0xE0 ==> b1 >= 0xA0) && (b0 == 0xED ==> b1 < 0xA0)
    && (b0 == 0xF0 ==> b1 >= 0x90) && (b0 == 0xF4 ==> b1 < 0x90)
  }

  /** Six more bits, from a continuation byte. */
  function Six(high: int, b: Byte): int {
    high * 64 + (b - 0x80)
  }

  function DecodeStep(s: Bytes): (r: Step)
    requires s != []
    ensures 1 <= r.n <= |s|
  {
    var b0: int := s[0];
    if b0 < 0x80 then Good(b0, 1)
    else if b0 < 0xC2 || b0 >= 0xF5 then Bad(1)
    else if |s| == 1 then Bad(1)               // unexpected end of data
    else if !SecondOk(b0, s[1]) then Bad(1)
    else if b0 < 0xE0 then Good(Six(b0 - 0xC0, s[1]), 2)
    else if |s| == 2 then Bad(2)               // unexpected end of data
    else if !Continuation(s[2]) then Bad(2)
    else if b0 < 0xF0 then Good(Six(Six(b0 - 0xE0, s[1]), s[2]), 3)
    else if |s| == 3 then Bad(3)               // unexpected end of data
    else if !Continuation(s[3]) then Bad(3)
    else Good(Six(Six(Six(b0 - 0xF0, s[1]), s[2]), s[3]), 4)
  }

  /** `bytes.decode("utf-8", errors="ignore")` */
  function DecodeIgnore(s: Bytes): seq<Scalar> {
    if s == [] then []
    else
      var step := DecodeStep(s);
      (if step.Good? then [step.c] else []) + DecodeIgnore(s[step.n..])
  }

  /** `_truncate`; None is the error for text that cannot be encoded. */
  function Truncate(text: seq<CodePoint>, limit: nat): Option<Bytes> {
    if !Encodable(text) then None
    else
      var encoded := Encode(text);
      Some(Encode(DecodeIgnore(if limit <= |encoded| then encoded[..limit] else encoded)))
  }

  lemma SplitSix(c: nat)
    ensures Six(c / 64, 0x80 + c % 64) == c
  {}

  lemma SixSplits(high: nat, b: Byte)
    requires Continuation(b)
    ensures Six(high, b) / 64 == high && 0x80 + Six(high, b) % 64 == b
  {}

  /** The decoder takes nothing for a character but its encoding: no overlong form, no
      surrogate, nothing above the last code point. */
  lemma DecodeIsStrict(s: Bytes)
    requires s != [] && DecodeStep(s).Good?
    ensures EncodeOne(DecodeStep(s).c) == s[..DecodeStep(s).n]
  {
    var b0: int := s[0];
    if b0 >= 0x80 {
      var high := if b0 < 0xE0 then b0 - 0xC0 else if b0 < 0xF0 then b0 - 0xE0 else b0 - 0xF0;
      SixSplits(high, s[1]);
      if b0 >= 0xE0 {
        SixSplits(Six(high, s[1]), s[2]);
      }
      if b0 >= 0xF0 {
        SixSplits(Six(Six(high, s[1]), s[2]), s[3]);
      }
    }
  }

  lemma DecodeFront(c: Scalar, rest: Bytes)
    ensures DecodeStep(EncodeOne(c) + rest) == Good(c, |EncodeOne(c)|)
  {
    SplitSix(c);
    SplitSix(c / 64);
    SplitSix(c / 64 / 64);
    if c >= 0x80 {
      SecondInRange(c);
    }
  }

  lemma SecondInRange(c: Scalar)
    requires c >= 0x80
    ensures 0xC2 <= EncodeOne(c)[0] < 0xF5 && SecondOk(EncodeOne(c)[0], EncodeOne(c)[1])
  {}

  /** The decoder drops a cut character whole: all its bytes are one error. */
  lemma DecodeCut(c: Scalar, n: nat)
    requires n < |EncodeOne(c)|
    ensures DecodeIgnore(EncodeOne(c)[..n]) == []
  {
    var cut := EncodeOne(c)[..n];
    if n > 0 {
      assert DecodeStep(cut) == Bad(n);
      assert cut[n..] == [];
    }
  }

  /** Decoding undoes encoding. */
  lemma {:induction false} DecodeEncode(text: seq<Scalar>)
    ensures DecodeIgnore(Encode(text)) == text
  {
    if text != [] {
      var e, rest := EncodeOne(text[0]), Encode(text[1..]);
      DecodeFront(text[0], rest);
      assert (e + rest)[|e|..] == rest;
      DecodeEncode(text[1..]);
    }
  }

  lemma EncodeTake(text: seq<Scalar>, n: nat)
    requires 1 <= n <= |text|
    ensures Encode(text[..n]) == EncodeOne(text[0]) + Encode(text[1..][..n - 1])
  {
    assert text[..n][1..] == text[1..][..n - 1];
  }

  lemma DecodeAfter(c: Scalar, rest: Bytes)
    ensures DecodeIgnore(EncodeOne(c) + rest) == [c] + DecodeIgnore(rest)
  {
    DecodeFront(c, rest);
    assert (EncodeOne(c) + rest)[|EncodeOne(c)|..] == rest;
  }

  lemma TakePast(a: Bytes, b: Bytes, n: nat)
    requires |a| <= n <= |a| + |b|
    ensures (a + b)[..n] == a + b[..n - |a|]
  {}

  lemma DecodeTake(c: Scalar, rest: Bytes, limit: nat)
    requires |EncodeOne(c)| <= limit <= |EncodeOne(c)| + |rest|
    ensures DecodeIgnore((EncodeOne(c) + rest)[..limit]) == [c] + DecodeIgnore(rest[..limit - |EncodeOne(c)|])
  {
    TakePast(EncodeOne(c), rest, limit);
    DecodeAfter(c, rest[..limit - |EncodeOne(c)|]);
  }

  /** `n` is how many whole characters of `text` fit in `limit` bytes, and they are what the
      decoder makes of the cut encoding. */
  ghost predicate Fits(text: seq<Scalar>, limit: nat, n: nat) {
    && n <= |text| && limit <= |Encode(text)|
    && DecodeIgnore(Encode(text)[..limit]) == text[..n]
    && limit - 3 <= |Encode(text[..n])| <= limit
    && (n < |text| ==> limit < |Encode(text[..n + 1])|)
  }

  lemma NothingFits(text: seq<Scalar>, limit: nat)
    requires text != [] && limit < |EncodeOne(text[0])|
    ensures Fits(text, limit, 0)
  {
    EncodeTake(text, 1);
    DecodeCut(text[0], limit);
    assert Encode(text)[..limit] == EncodeOne(text[0])[..limit];
  }

  lemma OneMoreDecodes(c: Scalar, rest: seq<Scalar>, limit: nat, m: nat)
    requires |EncodeOne(c)| <= limit <= |EncodeOne(c)| + |Encode(rest)|
    requires m <= |rest| && DecodeIgnore(Encode(rest)[..limit - |EncodeOne(c)|]) == rest[..m]
    ensures DecodeIgnore((EncodeOne(c) + Encode(rest))[..limit]) == [c] + rest[..m]
  {
    DecodeTake(c, Encode(rest), limit);
  }

  /** The encoded length of a prefix, front character apart. */
  lemma TakeLength(text: seq<Scalar>, n: nat)
    requires text != [] && n < |text|
    ensures |Encode(text[..n + 1])| == |EncodeOne(text[0])| + |Encode(text[1..][..n])|
  {
    EncodeTake(text, n + 1);
  }

  lemma TakeFront(text: seq<Scalar>, n: nat)
    requires n < |text|
    ensures text[..n + 1] == [text[0]] + text[1..][..n]
  {}

  lemma OneMoreText(text: seq<Scalar>, limit: nat, m: nat)
    requires text != [] && |EncodeOne(text[0])| <= limit <= |Encode(text)|
    requires Fits(text[1..], limit - |EncodeOne(text[0])|, m)
    ensures m < |text| && DecodeIgnore(Encode(text)[..limit]) == text[..m + 1]
  {
    OneMoreDecodes(text[0], text[1..], limit, m);
    TakeFront(text, m);
  }

  lemma OneMoreLength(text: seq<Scalar>, limit: nat, m: nat)
    requires text != [] && |EncodeOne(text[0])| <= limit <= |Encode(text)|
    requires Fits(text[1..], limit - |EncodeOne(text[0])|, m)
    ensures m < |text| && limit - 3 <= |Encode(text[..m + 1])| <= limit
    ensures m + 1 < |text| ==> limit < |Encode(text[..m + 2])|
  {
    TakeLength(text, m);
    if m + 1 < |text| {
      TakeLength(text, m + 1);
    }
  }

  lemma OneMoreFits(text: seq<Scalar>, limit: nat, m: nat)
    requires text != [] && |EncodeOne(text[0])| <= limit <= |Encode(text)|
    requires Fits(text[1..], limit - |EncodeOne(text[0])|, m)
    ensures Fits(text, limit, m + 1)
  {
    OneMoreText(text, limit, m);
    OneMoreLength(text, limit, m);
  }

  /** Decoding a cut encoding gives the longest prefix of whole characters that fits. */
  lemma {:induction false} DecodePrefix(text: seq<Scalar>, limit: nat) returns (n: nat)
    requires limit <= |Encode(text)|
    ensures Fits(text, limit, n)
  {
    if text == [] {
      n := 0;
    } else if limit < |EncodeOne(text[0])| {
      NothingFits(text, limit);
      n := 0;
    } else {
      var m := DecodePrefix(text[1..], limit - |EncodeOne(text[0])|);
      OneMoreFits(text, limit, m);
      n := m + 1;
    }
  }

  /** `_truncate`: for every encodable text and every limit the result is the encoding of the
      longest prefix of whole characters that fits, hence valid UTF-8 of at most `limit`
      bytes, and at most three bytes are lost to the boundary. */
  lemma TruncateIsLongestPrefix(text: seq<CodePoint>, limit: nat) returns (n: nat)
    requires Encodable(text)
    ensures n <= |text| && Truncate(text, limit) == Some(Encode(text[..n])) && |Encode(text[..n])| <= limit
    ensures n < |text| ==> limit < |Encode(text[..n + 1])| && limit - 3 <= |Encode(text[..n])|
    ensures DecodeIgnore(Truncate(text, limit).value) == text[..n]
  {
    if limit <= |Encode(text)| {
      n := DecodePrefix(text, limit);
    } else {
      n := |text|;
      DecodeEncode(text);
      assert text[..n] == text;
    }
    DecodeEncode(text[..n]);
  }
}
