/** The decimal integers of the replay counter: `str(n).encode()` and `int(raw.decode("ascii"))`. */
module Decimal {
  import opened Message

  function FormatNat(n: nat): (b: Bytes)
    ensures b != [] && forall i :: 0 <= i < |b| ==> Digit(b[i])
  {
    if n < 10 then [48 + n] else FormatNat(n / 10) + [48 + n % 10]
  }

  function Format(n: int): Bytes {
    if n < 0 then [45] + FormatNat(-n) else FormatNat(n)
  }

  predicate Digit(b: Byte) {
    48 <= b < 58
  }

  /** ASCII characters that `int()` strips. */
  predicate Space(b: Byte) {
    9 <= b <= 13 || 28 <= b <= 32
  }

  function StripLeft(s: Bytes): Bytes {
    if s != [] && Space(s[0]) then StripLeft(s[1..]) else s
  }

  function StripRight(s: Bytes): Bytes {
    if s != [] && Space(s[|s| - 1]) then StripRight(s[..|s| - 1]) else s
  }

  /** Digits, with single underscores allowed between them. */
  function ParseDigits(s: Bytes): Option<nat> {
    if s == [] || !Digit(s[|s| - 1]) then None
    else
      var d := s[|s| - 1] - 48;
      if |s| == 1 then Some(d)
      else
        match ParseDigits(if s[|s| - 2] == 95 then s[..|s| - 2] else s[..|s| - 1])
        case None => None
        case Some(v) => Some(10 * v + d)
  }

  /** None stands for UnicodeDecodeError and ValueError alike. */
  function Parse(raw: Bytes): Option<int> {
    var s := StripRight(StripLeft(raw));
    if exists i :: 0 <= i < |raw| && raw[i] >= 128 then None
    else if s != [] && s[0] == 45 then
      match ParseDigits(s[1..])
      case None => None
      case Some(v) => var n: int := v; Some(-n)
    else if s != [] && s[0] == 43 then
      match ParseDigits(s[1..])
      case None => None
      case Some(v) => Some(v)
    else
      match ParseDigits(s)
      case None => None
      case Some(v) => Some(v)
  }

  lemma {:induction false} ParseFormatNat(n: nat)
    ensures ParseDigits(FormatNat(n)) == Some(n)
  {
    if n >= 10 {
      ParseFormatNat(n / 10);
      var b := FormatNat(n);
      assert b[..|b| - 1] == FormatNat(n / 10);
      assert b[|b| - 2] == FormatNat(n / 10)[|b| - 2];
    }
  }

  lemma {:induction false} StripsLeft(a: Bytes, x: Bytes)
    requires (forall i :: 0 <= i < |a| ==> Space(a[i])) && x != [] && !Space(x[0])
    ensures StripLeft(a + x) == x
  {
    if a == [] {
      assert a + x == x;
    } else {
      assert (a + x)[1..] == a[1..] + x;
      StripsLeft(a[1..], x);
    }
  }

  lemma {:induction false} StripsRight(x: Bytes, b: Bytes)
    requires (forall i :: 0 <= i < |b| ==> Space(b[i])) && x != [] && !Space(x[|x| - 1])
    ensures StripRight(x + b) == x
  {
    if b == [] {
      assert x + b == x;
    } else {
      var c := b[..|b| - 1];
      assert (x + b)[..|x + b| - 1] == x + c;
      StripsRight(x, c);
    }
  }

  lemma Strips(a: Bytes, x: Bytes, b: Bytes)
    requires forall i :: 0 <= i < |a| ==> Space(a[i])
    requires forall i :: 0 <= i < |b| ==> Space(b[i])
    requires x != [] && !Space(x[0]) && !Space(x[|x| - 1])
    ensures StripRight(StripLeft(a + x + b)) == x
  {
    assert a + x + b == a + (x + b);
    StripsLeft(a, x + b);
    StripsRight(x, b);
  }

  /** As `int()` does, reading looks past white space on both sides ... */
  lemma ParseSpaced(a: Bytes, n: nat, b: Bytes)
    requires forall i :: 0 <= i < |a| ==> Space(a[i])
    requires forall i :: 0 <= i < |b| ==> Space(b[i])
    ensures Parse(a + FormatNat(n) + b) == Some(n)
  {
    ParseFormatNat(n);
    Strips(a, FormatNat(n), b);
  }

  /** ... and a sign in front. */
  lemma ParseSigned(a: Bytes, n: int, b: Bytes, sign: Byte)
    requires n >= 0 && sign in {43, 45}
    requires forall i :: 0 <= i < |a| ==> Space(a[i])
    requires forall i :: 0 <= i < |b| ==> Space(b[i])
    ensures Parse(a + ([sign] + FormatNat(n)) + b) == Some(if sign == 45 then -n else n)
  {
    ParseFormatNat(n);
    Strips(a, [sign] + FormatNat(n), b);
    assert ([sign] + FormatNat(n))[1..] == FormatNat(n);
  }

  /** What is empty but for white space, or has a byte that is not ASCII, is not a number. */
  lemma Unreadable(raw: Bytes)
    ensures (forall i :: 0 <= i < |raw| ==> Space(raw[i])) ==> Parse(raw) == None
    ensures (exists i :: 0 <= i < |raw| && raw[i] >= 128) ==> Parse(raw) == None
  {
    if forall i :: 0 <= i < |raw| ==> Space(raw[i]) {
      OnlySpaces(raw);
    }
  }

  lemma {:induction false} OnlySpaces(raw: Bytes)
    requires forall i :: 0 <= i < |raw| ==> Space(raw[i])
    ensures StripLeft(raw) == []
  {
    if raw != [] {
      OnlySpaces(raw[1..]);
    }
  }

  /** Parsing undoes formatting, for every integer. */
  lemma ParseFormat(n: int)
    ensures Parse(Format(n)) == Some(n)
  {
    if n < 0 {
      ParseFormatNat(-n);
      assert Format(n)[1..] == FormatNat(-n);
    } else {
      ParseFormatNat(n);
    }
  }
}
