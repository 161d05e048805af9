/**
 Finding the end of an object: braces are matched, except inside quotes, and a quote behind a backslash
 does not count. Text made of complete tokens leaves the search where it was.
 */
module JsonObjects {
  import opened Options
  import opened JsonStrings

  // The state of the search: open braces, inside quotes or not, and the character before.
  datatype Scan = Scan(depth: int, quoted: bool, prev: char)

  function Next(s: Scan, c: char): Scan {
    if c == QUOTE && s.prev != SLASH then Scan(s.depth, !s.quoted, c)
    else if c == '{' && !s.quoted then Scan(s.depth + 1, s.quoted, c)
    else if c == '}' && !s.quoted then Scan(s.depth - 1, s.quoted, c)
    else s.(prev := c)
  }

  function After(s: Scan, t: string): Scan
    decreases t
  {
    if t == [] then s else After(Next(s, t[0]), t[1..])
  }

  // The closing brace is not in t.
  predicate StaysOpen(s: Scan, t: string)
    decreases t
  {
    t == [] || (Next(s, t[0]).depth >= 0 && StaysOpen(Next(s, t[0]), t[1..]))
  }

  // The position of the closing brace.
  function Close(s: Scan, t: string): (r: Option<nat>)
    ensures r.Some? ==> r.value < |t|
    decreases t
  {
    if t == [] then None
    else if Next(s, t[0]).depth < 0 then Some(0)
    else
      var r := Close(Next(s, t[0]), t[1..]);
      if r.None? then None else Some(r.value + 1)
  }

  lemma {:induction false} AfterConcat(s: Scan, a: string, b: string)
    ensures After(s, a + b) == After(After(s, a), b)
    ensures StaysOpen(s, a) && StaysOpen(After(s, a), b) ==> StaysOpen(s, a + b)
    decreases a
  {
    if a == [] {
      assert a + b == b;
    } else {
      assert (a + b)[1..] == a[1..] + b;
      AfterConcat(Next(s, a[0]), a[1..], b);
    }
  }

  lemma {:induction false} CloseBehind(s: Scan, t: string, rest: string)
    requires StaysOpen(s, t)
    ensures var r := Close(After(s, t), rest);
            Close(s, t + rest) == if r.None? then None else Some(|t| + r.value)
    decreases t
  {
    if t == [] {
      assert t + rest == rest;
    } else {
      assert (t + rest)[1..] == t[1..] + rest;
      CloseBehind(Next(s, t[0]), t[1..], rest);
    }
  }

  // -------------------------------------------------------------------------
  // Complete tokens
  // -------------------------------------------------------------------------

  // Outside quotes, whatever the depth, the text leaves the search outside quotes at the same depth.
  ghost predicate Neutral(t: string) {
    forall s: Scan :: s.depth >= 0 && !s.quoted && s.prev != SLASH ==> NeutralFrom(s, t)
  }

  predicate NeutralFrom(s: Scan, t: string) {
    StaysOpen(s, t) && After(s, t).depth == s.depth && !After(s, t).quoted && After(s, t).prev != SLASH
  }

  lemma NeutralConcat(a: string, b: string)
    requires Neutral(a) && Neutral(b)
    ensures Neutral(a + b)
  {
    forall s: Scan | s.depth >= 0 && !s.quoted && s.prev != SLASH ensures NeutralFrom(s, a + b) {
      assert NeutralFrom(s, a);
      assert NeutralFrom(After(s, a), b);
      AfterConcat(s, a, b);
    }
  }

  predicate IsPlain(c: char) {
    c != QUOTE && c != SLASH && c != '{' && c != '}'
  }

  predicate AllPlain(t: string) {
    forall i :: 0 <= i < |t| ==> IsPlain(t[i])
  }

  lemma {:induction false} PlainFrom(s: Scan, t: string)
    requires AllPlain(t) && s.depth >= 0 && !s.quoted && s.prev != SLASH
    ensures NeutralFrom(s, t)
    decreases t
  {
    if t != [] { PlainFrom(Next(s, t[0]), t[1..]); }
  }

  lemma PlainIsNeutral(t: string)
    requires AllPlain(t)
    ensures Neutral(t)
  {
    forall s: Scan | s.depth >= 0 && !s.quoted && s.prev != SLASH ensures NeutralFrom(s, t) { PlainFrom(s, t); }
  }

  // Inside quotes: every quote has a backslash before it.
  predicate Shielded(t: string, prev: char) {
    t == [] || ((t[0] == QUOTE ==> prev == SLASH) && Shielded(t[1..], t[0]))
  }

  predicate EndsInSlash(t: string) {
    t != [] && t[|t| - 1] == SLASH
  }

  lemma {:induction false} ShieldedFrom(s: Scan, t: string)
    requires Shielded(t, s.prev) && s.quoted && s.depth >= 0
    ensures StaysOpen(s, t) && After(s, t) == Scan(s.depth, true, if t == [] then s.prev else t[|t| - 1])
    decreases t
  {
    if t != [] { ShieldedFrom(Next(s, t[0]), t[1..]); }
  }

  lemma QuotedIsNeutral(t: string)
    requires Shielded(t, QUOTE) && !EndsInSlash(t)
    ensures Neutral([QUOTE] + t + [QUOTE])
  {
    forall s: Scan | s.depth >= 0 && !s.quoted && s.prev != SLASH ensures NeutralFrom(s, [QUOTE] + t + [QUOTE]) {
      var s1 := Next(s, QUOTE);
      ShieldedFrom(s1, t);
      OneChar(s, QUOTE);
      OneChar(After(s1, t), QUOTE);
      AfterConcat(s, [QUOTE], t);
      AfterConcat(s, [QUOTE] + t, [QUOTE]);
    }
  }

  lemma OneChar(s: Scan, c: char)
    ensures After(s, [c]) == Next(s, c) && (StaysOpen(s, [c]) <==> Next(s, c).depth >= 0)
  {
    assert [c][1..] == [];
  }

  lemma BracedIsNeutral(t: string)
    requires Neutral(t)
    ensures Neutral(['{'] + t + ['}'])
  {
    forall s: Scan | s.depth >= 0 && !s.quoted && s.prev != SLASH ensures NeutralFrom(s, ['{'] + t + ['}']) {
      var s1 := Next(s, '{');
      assert NeutralFrom(s1, t);
      OneChar(s, '{');
      OneChar(After(s1, t), '}');
      AfterConcat(s, ['{'], t);
      AfterConcat(s, ['{'] + t, ['}']);
    }
  }

  // -------------------------------------------------------------------------
  // Escaped strings
  // -------------------------------------------------------------------------

  lemma {:induction false} EscapeShielded(s: string, prev: char)
    ensures Shielded(Escape(s), prev)
  {
    if s != [] {
      var e := EscapeChar(s[0]);
      var rest := Escape(s[1..]);
      EscapeShielded(s[1..], e[|e| - 1]);
      var all := e + rest;
      if |e| == 2 {
        assert all[1..][1..] == rest && all[1..][0] == e[1] && all[0] == SLASH;
        assert Shielded(all[1..], SLASH);
      } else {
        assert all[1..] == rest;
      }
    }
  }

  // An escaped string ends in a backslash exactly when the string does.
  lemma {:induction false} EscapeEnd(s: string)
    ensures EndsInSlash(Escape(s)) <==> EndsInSlash(s)
  {
    if |s| == 1 {
      assert Escape(s) == EscapeChar(s[0]) + Escape(s[1..]) == EscapeChar(s[0]);
    } else if |s| > 1 {
      EscapeEnd(s[1..]);
      assert Escape(s)[|Escape(s)| - 1] == Escape(s[1..])[|Escape(s[1..])| - 1];
    }
  }

  lemma StringIsNeutral(s: string)
    requires !EndsInSlash(s)
    ensures Neutral([QUOTE] + Escape(s) + [QUOTE])
  {
    EscapeShielded(s, QUOTE);
    EscapeEnd(s);
    QuotedIsNeutral(Escape(s));
  }

  // -------------------------------------------------------------------------
  // Reading an object
  // -------------------------------------------------------------------------

  function SkipChars(t: string, skip: string): (r: string)
    ensures |r| <= |t|
  {
    if t == [] || t[0] !in skip then t else SkipChars(t[1..], skip)
  }

  const BLANKS := " \t"

  // JSONGetObject: the text between the braces, and what follows.
  function GetObject(t: string): (r: Option<(string, string)>)
    ensures r.Some? ==> |r.value.0| + |r.value.1| < |t|
  {
    var t1 := SkipChars(t, BLANKS);
    if t1 == [] || t1[0] != '{' then None
    else
      var k := Close(Scan(0, false, '{'), t1[1..]);
      if k.None? then None else Some((t1[1..][..k.value], t1[1..][k.value + 1..]))
  }

  lemma GetObjectOf(body: string, rest: string)
    requires Neutral(body)
    ensures GetObject("{" + body + "}" + rest) == Some((body, rest))
  {
    var s := Scan(0, false, '{');
    var t := "{" + body + "}" + rest;
    assert t[0] == '{' && t[1..] == body + ("}" + rest);
    assert NeutralFrom(s, body);
    CloseBehind(s, body, "}" + rest);
    assert ("}" + rest)[0] == '}';
    assert Close(After(s, body), "}" + rest) == Some(0);
    assert (body + ("}" + rest))[|body| + 1..] == rest;
  }

  // A buffer holding a text from `at` up to its terminator at `end`.
  ghost predicate Holds(a: array<char>, at: nat, end: nat, text: string)
    reads a
  {
    && at <= end < a.Length && a[end] == NUL && |text| == end - at && NulFree(text)
    && forall i :: at <= i < end ==> a[i] == text[i - at]
  }

  method SkipBlanks(a: array<char>, at: nat, ghost end: nat, ghost text: string) returns (pos: nat)
    requires Holds(a, at, end, text)
    ensures at <= pos <= end && text[pos - at..] == SkipChars(text, BLANKS) && Holds(a, pos, end, text[pos - at..])
  {
    pos := at;
    SkipsStart(text);
    CharAt(a, at, end, text, 0);
    hide Skips, Holds, SkipChars;
    ghost var k := 0;
    while a[pos] != NUL && (a[pos] == ' ' || a[pos] == '\t')
      invariant pos == at + k <= end < a.Length && |text| == end - at
      invariant k < |text| ==> a[pos] == text[k]
      invariant k == |text| ==> a[pos] == NUL
      invariant Skips(text, k)
      decreases end - pos
    {
      SkipOne(text, k);
      CharAt(a, at, end, text, k + 1);
      pos := pos + 1;
      k := k + 1;
    }
    assert k == pos - at;
    SkipsEnd(text, pos - at);
    HoldsFrom(a, at, end, text, pos - at);
  }

  lemma CharAt(a: array<char>, at: nat, end: nat, text: string, k: nat)
    requires Holds(a, at, end, text) && k <= |text|
    ensures at + k <= end < a.Length && |text| == end - at
    ensures k < |text| ==> a[at + k] == text[k] && text[k] != NUL
    ensures k == |text| ==> a[at + k] == NUL
  {
  }

  lemma HoldsFrom(a: array<char>, at: nat, end: nat, text: string, k: nat)
    requires Holds(a, at, end, text) && k <= |text|
    ensures Holds(a, at + k, end, text[k..])
  {
  }

  // There are only blanks in front of position k.
  ghost predicate Skips(text: string, k: nat) {
    k <= |text| && SkipChars(text[k..], BLANKS) == SkipChars(text, BLANKS)
  }

  lemma SkipsStart(text: string)
    ensures Skips(text, 0)
  {
    assert text[0..] == text;
  }

  lemma SkipsEnd(text: string, k: nat)
    requires Skips(text, k) && (k < |text| ==> text[k] != ' ' && text[k] != '\t')
    ensures text[k..] == SkipChars(text, BLANKS)
  {
  }

  lemma SkipOne(text: string, k: nat)
    requires k < |text| && (text[k] == ' ' || text[k] == '\t') && Skips(text, k)
    ensures Skips(text, k + 1)
  {
    assert text[k..][1..] == text[k + 1..];
  }

  function Shift(n: nat, r: Option<nat>): Option<nat> {
    if r.None? then None else Some(n + r.value)
  }

  lemma CloseStep(text: string, k: nat, s: Scan, r: Option<nat>)
    requires k < |text| && Shift(k, Close(s, text[k..])) == r
    ensures Next(s, text[k]).depth < 0 ==> r == Some(k)
    ensures Next(s, text[k]).depth >= 0 ==> Shift(k + 1, Close(Next(s, text[k]), text[k + 1..])) == r
  {
    assert text[k..][0] == text[k] && text[k..][1..] == text[k + 1..];
  }

  // The search for the closing brace.
  method FindClose(a: array<char>, start: nat, ghost end: nat, ghost text: string) returns (pos: nat)
    requires Holds(a, start, end, text) && start > 0 && a[start - 1] == '{'
    ensures start <= pos <= end
    ensures pos < end ==> a[pos] == '}' && Close(Scan(0, false, '{'), text) == Some(pos - start)
    ensures pos == end ==> Close(Scan(0, false, '{'), text) == None
  {
    pos := start;
    var depth, quoted := 0, false;
    ghost var s := Scan(0, false, '{');
    ghost var r := Close(s, text);
    assert text[0..] == text;
    hide Close, Next;
    while a[pos] != NUL
      invariant start <= pos <= end && depth >= 0 && s == Scan(depth, quoted, a[pos - 1])
      invariant Shift(pos - start, Close(s, text[pos - start..])) == r
      decreases end - pos
    {
      CloseStep(text, pos - start, s, r);
      ScanStep(s, a[pos]);
      if a[pos] == QUOTE {
        if a[pos - 1] != SLASH {
          quoted := !quoted;
        }
      } else if a[pos] == '{' {
        if !quoted {
          depth := depth + 1;
        }
      } else if a[pos] == '}' {
        if !quoted {
          depth := depth - 1;
        }
      }
      if depth < 0 {
        return;
      }
      s := Next(s, a[pos]);
      pos := pos + 1;
    }
    CloseNone(s);
  }

  lemma ScanStep(s: Scan, c: char)
    ensures c == QUOTE ==> Next(s, c) == Scan(s.depth, if s.prev == SLASH then s.quoted else !s.quoted, c)
    ensures c == '{' ==> Next(s, c) == Scan(if s.quoted then s.depth else s.depth + 1, s.quoted, c)
    ensures c == '}' ==> Next(s, c) == Scan(if s.quoted then s.depth else s.depth - 1, s.quoted, c)
    ensures c != QUOTE && c != '{' && c != '}' ==> Next(s, c) == Scan(s.depth, s.quoted, c)
  {
  }

  lemma CloseNone(s: Scan)
    ensures Close(s, []) == None
  {
  }

  // JSONGetObject on a buffer: the closing brace is overwritten with a terminator, and nothing else is
  // touched.
  method ReadObject(a: array<char>, at: nat, ghost end: nat, ghost text: string) returns (ok: bool, start: nat, next: nat)
    requires Holds(a, at, end, text)
    modifies a
    ensures ok <==> GetObject(text).Some?
    ensures ok ==> at < start < next <= end
    ensures ok ==> Holds(a, start, next - 1, GetObject(text).value.0) && Holds(a, next, end, GetObject(text).value.1)
    ensures forall i :: 0 <= i < a.Length && (ok ==> i != next - 1) ==> a[i] == old(a[i])
  {
    var pos := SkipBlanks(a, at, end, text);
    ghost var t1 := text[pos - at..];
    if a[pos] != '{' {
      return false, 0, 0;
    }
    assert pos != end && t1[0] == '{';
    pos := pos + 1;
    start := pos;
    ghost var t2 := t1[1..];
    assert Holds(a, start, end, t2);
    hide SkipChars, Close;
    pos := FindClose(a, start, end, t2);
    if a[pos] != '}' {
      return false, 0, 0;
    }
    assert pos != end;
    assert GetObject(text) == Some((t2[..pos - start], t2[pos - start + 1..]));
    hide GetObject, Holds;
    CutAt(a, start, end, t2, pos);
    return true, start, pos + 1;
  }

  // A terminator in the middle of a text makes two of it.
  method CutAt(a: array<char>, start: nat, ghost end: nat, ghost text: string, pos: nat)
    requires Holds(a, start, end, text) && start <= pos < end
    modifies a
    ensures Holds(a, start, pos, text[..pos - start]) && Holds(a, pos + 1, end, text[pos - start + 1..])
    ensures forall i :: 0 <= i < a.Length && i != pos ==> a[i] == old(a[i])
  {
    hide NulFree;
    PartsNulFree(text, pos - start);
    a[pos] := NUL;
  }

  lemma PartsNulFree(t: string, k: nat)
    requires NulFree(t) && k < |t|
    ensures NulFree(t[..k]) && NulFree(t[k + 1..])
  {
  }
}
