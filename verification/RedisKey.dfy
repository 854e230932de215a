/** The Redis key of a dedup record. */
module RedisKey {
  import opened Message
  import Decimal

  function Text(b: Bytes): (s: string)
    ensures |s| == |b| && forall i :: 0 <= i < |b| ==> s[i] == b[i] as char
  {
    seq(|b|, i requires 0 <= i < |b| => b[i] as char)
  }

  /** The group is prefixed with its length. */
  function KeyOf(prefix: string, group: string, key: string): string {
    prefix + ":" + Text(Decimal.FormatNat(|group|)) + ":" + group + ":" + key
  }

  ghost predicate FirstColon(s: string, n: nat) {
    n < |s| && s[n] == ':' && forall i :: 0 <= i < n ==> s[i] != ':'
  }

  lemma EndsAtColon(a: string, x: string)
    requires ':' !in a
    ensures FirstColon(a + ":" + x, |a|)
  {
    assert forall i :: 0 <= i < |a| ==> a[i] in a;
  }

  lemma FirstColonUnique(s: string, m: nat, n: nat)
    requires FirstColon(s, m) && FirstColon(s, n)
    ensures m == n
  {}

  /** Two texts that end at their first colon: equal with their tails, equal themselves. */
  lemma UpToColon(a: string, b: string, x: string, y: string)
    requires ':' !in a && ':' !in b && a + ":" + x == b + ":" + y
    ensures a == b && x == y
  {
    var s := a + ":" + x;
    EndsAtColon(a, x);
    EndsAtColon(b, y);
    FirstColonUnique(s, |a|, |b|);
    assert a == s[..|a|] && b == (b + ":" + y)[..|b|];
    assert x == s[|a| + 1..] && y == (b + ":" + y)[|b| + 1..];
  }

  lemma LengthInjective(m: nat, n: nat)
    requires Text(Decimal.FormatNat(m)) == Text(Decimal.FormatNat(n))
    ensures m == n
  {
    var a, b := Decimal.FormatNat(m), Decimal.FormatNat(n);
    assert forall i :: 0 <= i < |a| ==> a[i] as char == b[i] as char;
    assert a == b;
    Decimal.ParseFormatNat(m);
    Decimal.ParseFormatNat(n);
  }

  lemma NoColon(n: nat)
    ensures ':' !in Text(Decimal.FormatNat(n))
  {}

  /** Records of different groups or keys never share a Redis key, whatever colons they contain. */
  lemma KeyIsInjective(prefix: string, g: string, k: string, g': string, k': string)
    requires KeyOf(prefix, g, k) == KeyOf(prefix, g', k')
    ensures g == g' && k == k'
  {
    var n, n' := Text(Decimal.FormatNat(|g|)), Text(Decimal.FormatNat(|g'|));
    var x, y := g + ":" + k, g' + ":" + k';
    var head := prefix + ":";
    assert KeyOf(prefix, g, k) == head + (n + ":" + x);
    assert KeyOf(prefix, g', k') == head + (n' + ":" + y);
    assert n + ":" + x == KeyOf(prefix, g, k)[|head|..];
    assert n' + ":" + y == KeyOf(prefix, g', k')[|head|..];
    NoColon(|g|);
    NoColon(|g'|);
    UpToColon(n, n', x, y);
    LengthInjective(|g|, |g'|);
    assert g == x[..|g|] && g' == y[..|g|];
    assert k == x[|g| + 1..] && k' == y[|g| + 1..];
  }
}
