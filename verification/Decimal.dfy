/**
 Decimal integers as they are written to messages and files and read back.
 */
module Decimal {

  const MAX_INT64 := 0x7fff_ffff_ffff_ffff

  predicate IsDigit(c: char) {
    '0' <= c <= '9'
  }

  predicate AllDigits(s: string) {
    forall i :: 0 <= i < |s| ==> IsDigit(s[i])
  }

  function Digit(d: int): char
    requires 0 <= d < 10
  {
    '0' + d as char
  }

  function DigitValue(c: char): int
    requires IsDigit(c)
  {
    (c - '0') as int
  }

  // The usual notation, without leading zeros.
  function Digits(v: nat): (s: string)
    ensures s != [] && AllDigits(s)
  {
    if v < 10 then [Digit(v)] else Digits(v / 10) + [Digit(v % 10)]
  }

  function Notation(v: int): string {
    if v < 0 then "-" + Digits(-v) else Digits(v)
  }

  // The value of a run of digits.
  function ValueOf(s: string): nat
    requires AllDigits(s)
  {
    if s == [] then 0 else ValueOf(s[..|s| - 1]) * 10 + DigitValue(s[|s| - 1])
  }

  lemma {:induction false} ValueOfDigits(v: nat)
    ensures ValueOf(Digits(v)) == v
  {
    if v >= 10 {
      ValueOfDigits(v / 10);
      var s := Digits(v);
      assert s[..|s| - 1] == Digits(v / 10) && s[|s| - 1] == Digit(v % 10);
    }
  }

  // A value is at least that of any of its leading digits, so reading it never passes it.
  lemma {:induction false} PrefixIsSmaller(s: string, n: nat)
    requires AllDigits(s) && n <= |s|
    ensures ValueOf(s[..n]) <= ValueOf(s)
  {
    if n == |s| {
      assert s[..n] == s;
    } else {
      PrefixIsSmaller(s[..|s| - 1], n);
      assert s[..|s| - 1][..n] == s[..n];
    }
  }

  // -------------------------------------------------------------------------
  // Writing
  // -------------------------------------------------------------------------

  function Reversed(s: string): (r: string)
    ensures |r| == |s| && forall i :: 0 <= i < |s| ==> r[i] == s[|s| - 1 - i]
  {
    if s == [] then [] else [s[|s| - 1]] + Reversed(s[..|s| - 1])
  }

  lemma ReversedOnto(s: string, r: string)
    requires |r| == |s| && forall i :: 0 <= i < |s| ==> r[i] == s[|s| - 1 - i]
    ensures r == Reversed(s)
  {
  }

  // The digits from the lowest to the highest, as the loop produces them.
  function Backwards(v: nat): string {
    [Digit(v % 10)] + if v / 10 == 0 then [] else Backwards(v / 10)
  }

  lemma {:induction false} BackwardsIsReversed(v: nat)
    ensures Reversed(Backwards(v)) == Digits(v)
  {
    if v < 10 {
      assert v / 10 == 0 && v % 10 == v;
      assert Backwards(v)[..0] == [];
    } else {
      BackwardsIsReversed(v / 10);
      var b := Backwards(v);
      assert b == [Digit(v % 10)] + Backwards(v / 10);
      ReversedOnto(b, Digits(v));
    }
  }

  // The digit loop of int64tostr, lowest digit first.
  method WriteBackwards(a: array<char>, value: nat) returns (p: nat)
    requires |Backwards(value)| <= a.Length
    modifies a
    ensures p == |Backwards(value)| && a[..p] == Backwards(value)
    ensures forall i :: p <= i < a.Length ==> a[i] == old(a[i])
  {
    p := 0;
    var v: nat := value;
    ghost var all := Backwards(value);
    hide Backwards, Digit;
    while true
      invariant p <= |all| && all[p..] == Backwards(v)
      invariant forall i :: 0 <= i < p ==> a[i] == all[i]
      invariant forall i :: p <= i < a.Length ==> a[i] == old(a[i])
      decreases v
    {
      BackwardsStep(v);
      assert all[p] == all[p..][0] && all[p + 1..] == all[p..][1..];
      a[p] := Digit(v % 10);
      p := p + 1;
      v := v / 10;
      if v == 0 {
        break;
      }
    }
  }

  lemma BackwardsStep(v: nat)
    ensures Backwards(v) != [] && Backwards(v)[0] == Digit(v % 10)
    ensures Backwards(v)[1..] == if v / 10 == 0 then [] else Backwards(v / 10)
    ensures v / 10 != 0 ==> v / 10 < v
  {
  }

  function Signed(v: nat, neg: bool): string {
    Backwards(v) + if neg then "-" else ""
  }

  // The digits backwards, then the sign.
  method WriteSigned(a: array<char>, v: nat, neg: bool) returns (len: nat)
    requires |Signed(v, neg)| <= a.Length
    modifies a
    ensures len == |Signed(v, neg)| && a[..len] == Signed(v, neg)
    ensures forall i :: len <= i < a.Length ==> a[i] == old(a[i])
  {
    hide Backwards;
    len := WriteBackwards(a, v);
    if neg {
      a[len] := '-';
      len := len + 1;
    }
    assert forall i :: 0 <= i < len ==> a[i] == Signed(v, neg)[i];
  }

  // int64tostr: the digits backwards, then the sign, then the text turned around in place. Enough room
  // is assumed, as the source does.
  method Write(a: array<char>, value: int) returns (len: nat)
    requires -MAX_INT64 <= value <= MAX_INT64 && |Notation(value)| <= a.Length
    modifies a
    ensures len == |Notation(value)| && a[..len] == Notation(value)
    ensures forall i :: len <= i < a.Length ==> a[i] == old(a[i])
  {
    var neg := value < 0;
    var v: nat := if neg then -value else value;
    WholeTurned(v, neg);
    hide Signed, Reversed, Digits;
    len := WriteSigned(a, v, neg);
    Turn(a, len);
  }

  lemma WholeTurned(v: nat, neg: bool)
    ensures Reversed(Signed(v, neg)) == (if neg then "-" else "") + Digits(v)
  {
    BackwardsIsReversed(v);
    var b := Backwards(v);
    if neg {
      assert (b + "-")[..|b|] == b;
    } else {
      assert b + "" == b;
    }
  }

  // Turn the first n characters around in place.
  method Turn(a: array<char>, n: nat)
    requires n <= a.Length
    modifies a
    ensures a[..n] == Reversed(old(a[..n]))
    ensures forall i :: n <= i < a.Length ==> a[i] == old(a[i])
  {
    var lo, hi := 0, n - 1;
    while lo < hi
      invariant 0 <= lo <= n && lo + hi == n - 1 && hi < n
      invariant lo <= hi + 2
      invariant forall i :: 0 <= i < lo ==> a[i] == old(a[n - 1 - i]) && a[n - 1 - i] == old(a[i])
      invariant forall i :: lo <= i <= hi ==> a[i] == old(a[i])
      invariant forall i :: n <= i < a.Length ==> a[i] == old(a[i])
    {
      a[lo], a[hi] := a[hi], a[lo];
      lo, hi := lo + 1, hi - 1;
    }
    ReversedOnto(old(a[..n]), a[..n]);
  }

  // -------------------------------------------------------------------------
  // Reading
  // -------------------------------------------------------------------------

  // The number of digits at the front.
  function Run(s: string): (n: nat)
    ensures n <= |s| && AllDigits(s[..n]) && (n < |s| ==> !IsDigit(s[n]))
  {
    if s == [] || !IsDigit(s[0]) then 0
    else
      var n := 1 + Run(s[1..]);
      assert s[..n] == [s[0]] + s[1..][..n - 1];
      n
  }

  // What strtoint64 reads: how many characters, and the value.
  function Read(s: string): (nat, int) {
    if s != [] && s[0] == '-' then
      var value: int := ValueOf(s[1..][..Run(s[1..])]);
      (1 + Run(s[1..]), -value)
    else (Run(s), ValueOf(s[..Run(s)]))
  }

  lemma {:induction false} RunOf(d: string, rest: string)
    requires AllDigits(d) && (rest == [] || !IsDigit(rest[0]))
    ensures Run(d + rest) == |d|
  {
    if d == [] {
      assert d + rest == rest;
    } else {
      assert (d + rest)[1..] == d[1..] + rest;
      RunOf(d[1..], rest);
    }
  }

  lemma ReadDigits(n: nat, rest: string)
    requires rest == [] || !IsDigit(rest[0])
    ensures var s := Digits(n) + rest;
            Run(s) == |Digits(n)| && s[..Run(s)] == Digits(n) && ValueOf(s[..Run(s)]) == n && s != [] && IsDigit(s[0])
  {
    ValueOfDigits(n);
    RunOf(Digits(n), rest);
    hide Run, ValueOf;
    assert (Digits(n) + rest)[..|Digits(n)|] == Digits(n);
    assert (Digits(n) + rest)[0] == Digits(n)[0];
  }

  // Whatever was written is read back, up to the first character that is no digit.
  lemma ReadUndoesNotation(v: int, rest: string)
    requires rest == [] || !IsDigit(rest[0])
    ensures Read(Notation(v) + rest) == (|Notation(v)|, v)
  {
    hide Digits, Run, ValueOf, Read;
    if v < 0 {
      ReadDigits(-v, rest);
      var d := Digits(-v) + rest;
      ReadNegative(d);
      assert Notation(v) + rest == "-" + d;
    } else {
      ReadDigits(v, rest);
      ReadPositive(Digits(v) + rest);
    }
  }

  lemma ReadPositive(s: string)
    requires s != [] && IsDigit(s[0])
    ensures Read(s) == (Run(s), ValueOf(s[..Run(s)]))
  {
    hide Run, ValueOf;
  }

  lemma ReadNegative(d: string)
    ensures Read("-" + d) == (1 + Run(d), -(ValueOf(d[..Run(d)]) as int))
  {
    var s := "-" + d;
    assert s[0] == '-' && s[1..] == d;
    hide Run, ValueOf;
  }

  // The digit loop of strtoint64.
  method ReadRun(s: string, from: nat) returns (pos: nat, value: nat)
    requires from <= |s| && ValueOf(s[from..][..Run(s[from..])]) <= MAX_INT64
    ensures pos == from + Run(s[from..]) && value == ValueOf(s[from..][..Run(s[from..])])
  {
    ghost var text := s[from..];
    pos, value := from, 0;
    hide ReadSoFar;
    ReadStarts(text);
    while pos < |s|
      invariant from <= pos <= |s|
      invariant ReadSoFar(text, pos - from, value)
    {
      var c := s[pos];
      assert c == text[pos - from];
      if c < '0' || c > '9' {
        break;
      }
      ReadNext(text, pos - from, value);
      value := value * 10 + DigitValue(c);
      pos := pos + 1;
    }
    assert pos < |s| ==> text[pos - from] == s[pos];
    ReadEnds(text, pos - from, value);
  }

  // The value of the first k digits of a run.
  ghost predicate ReadSoFar(text: string, k: nat, value: nat) {
    k <= Run(text) && AllDigits(text[..k]) && value == ValueOf(text[..k])
  }

  lemma ReadStarts(text: string)
    ensures ReadSoFar(text, 0, 0)
  {
    assert text[..0] == [];
  }

  lemma ReadNext(text: string, k: nat, value: nat)
    requires k < |text| && IsDigit(text[k]) && ReadSoFar(text, k, value)
    ensures ReadSoFar(text, k + 1, value * 10 + DigitValue(text[k]))
    ensures value * 10 + DigitValue(text[k]) <= ValueOf(text[..Run(text)])
  {
    hide ValueOf;
    var n := Run(text);
    assert k < n <= |text| && AllDigits(text[..n]);
    hide Run;
    OneMoreDigit(text, k);
    PrefixBound(text, n, k + 1);
  }

  lemma ReadEnds(text: string, k: nat, value: nat)
    requires ReadSoFar(text, k, value) && (k < |text| ==> !IsDigit(text[k]))
    ensures k == Run(text) && value == ValueOf(text[..Run(text)])
  {
    RunDigits(text);
  }

  lemma RunDigits(text: string)
    ensures forall i :: 0 <= i < Run(text) ==> IsDigit(text[i])
  {
    var all := text[..Run(text)];
    forall i | 0 <= i < Run(text) ensures IsDigit(text[i]) { assert all[i] == text[i]; }
  }

  // strtoint64. Its arithmetic is undefined beyond 64 bits, so the digits have to fit.
  method ReadInt(s: string) returns (n: nat, value: int)
    requires -MAX_INT64 <= Read(s).1 <= MAX_INT64
    ensures (n, value) == Read(s)
  {
    assert s[0..] == s;
    hide ValueOf, Run;
    var digits: nat;
    if s != [] && s[0] == '-' {
      n, digits := ReadRun(s, 1);
      value := -(digits as int);
    } else {
      n, digits := ReadRun(s, 0);
      value := digits;
    }
  }

  lemma OneMoreDigit(text: string, k: nat)
    requires k < |text| && AllDigits(text[..k]) && IsDigit(text[k])
    ensures AllDigits(text[..k + 1]) && ValueOf(text[..k + 1]) == ValueOf(text[..k]) * 10 + DigitValue(text[k])
  {
    var next := text[..k + 1];
    assert next[..|next| - 1] == text[..k] && next[|next| - 1] == text[k];
  }

  lemma PrefixOf(text: string, n: nat, k: nat)
    requires k <= n <= |text| && AllDigits(text[..n])
    ensures text[..n][..k] == text[..k] && AllDigits(text[..k])
  {
    assert forall i :: 0 <= i < k ==> text[..k][i] == text[..n][i];
  }

  lemma PrefixBound(text: string, n: nat, k: nat)
    requires k <= n <= |text| && AllDigits(text[..n])
    ensures AllDigits(text[..k]) && ValueOf(text[..k]) <= ValueOf(text[..n])
  {
    hide ValueOf;
    PrefixOf(text, n, k);
    PrefixIsSmaller(text[..n], k);
  }
}
