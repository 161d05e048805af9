/**
 Strings in messages: the four escapes of the writer (a subset of those in section 7 of RFC 8259), the
 reader that undoes them in place, and their round trip.
 */
module JsonStrings {
  import opened Options

  const NUL: char := 0 as char
  const QUOTE := '"'
  const SLASH := '\\'

  predicate NulFree(s: string) {
    forall i :: 0 <= i < |s| ==> s[i] != NUL
  }

  // -------------------------------------------------------------------------
  // Escaping
  // -------------------------------------------------------------------------

  function EscapeChar(c: char): (e: string)
    ensures 1 <= |e| <= 2
  {
    if c == SLASH then [SLASH, SLASH]
    else if c == '\t' then [SLASH, 't']
    else if c == '\n' then [SLASH, 'n']
    else if c == QUOTE then [SLASH, QUOTE]
    else [c]
  }

  function Escape(s: string): (e: string)
    ensures |s| <= |e| <= 2 * |s|
  {
    if s == [] then [] else EscapeChar(s[0]) + Escape(s[1..])
  }

  lemma {:induction false} EscapeConcat(a: string, b: string)
    ensures Escape(a + b) == Escape(a) + Escape(b)
  {
    if a == [] {
      assert a + b == b;
    } else {
      assert (a + b)[1..] == a[1..] + b;
      EscapeConcat(a[1..], b);
    }
  }

  // What is read for the character behind a backslash; any other is dropped.
  function Unescaped(c: char): (u: string)
    ensures |u| <= 1
  {
    if c == QUOTE then [QUOTE] else if c == SLASH then [SLASH] else if c == 't' then "\t" else if c == 'n' then "\n" else ""
  }

  // Read up to the closing quote: the string, and what follows the quote.
  function Unquote(t: string): (r: Option<(string, string)>)
    ensures r.Some? ==> |r.value.0| + |r.value.1| < |t|
  {
    if t == [] then None
    else if t[0] == QUOTE then Some(([], t[1..]))
    else if t[0] == SLASH then
      if |t| == 1 then None
      else
        var r := Unquote(t[2..]);
        if r.None? then None else Some((Unescaped(t[1]) + r.value.0, r.value.1))
    else
      var r := Unquote(t[1..]);
      if r.None? then None else Some(([t[0]] + r.value.0, r.value.1))
  }

  function Joined(done: string, r: Option<(string, string)>): Option<(string, string)> {
    if r.None? then None else Some((done + r.value.0, r.value.1))
  }

  lemma UnquoteChar(c: char, t: string)
    ensures Unquote(EscapeChar(c) + t) == Joined([c], Unquote(t))
  {
    var e := EscapeChar(c);
    if |e| == 2 {
      assert e == [SLASH, e[1]] && Unescaped(e[1]) == [c];
      UnquoteSlash(e[1], t);
    } else {
      UnquotePlain(c, t);
    }
    hide Unquote, Unescaped;
  }

  lemma UnquoteSlash(c: char, t: string)
    ensures Unquote([SLASH, c] + t) == Joined(Unescaped(c), Unquote(t))
  {
    var s := [SLASH, c] + t;
    assert s[0] == SLASH && s[1] == c && s[2..] == t;
    hide Unescaped;
  }

  lemma UnquotePlain(c: char, t: string)
    requires c != SLASH && c != QUOTE
    ensures Unquote([c] + t) == Joined([c], Unquote(t))
  {
    var s := [c] + t;
    assert s[0] == c && s[1..] == t;
  }

  // Reading undoes escaping, for every string and whatever follows.
  lemma {:induction false} UnquoteUndoesEscape(s: string, rest: string)
    ensures Unquote(Escape(s) + [QUOTE] + rest) == Some((s, rest))
  {
    if s == [] {
      assert Escape(s) + [QUOTE] + rest == [QUOTE] + rest;
    } else {
      var t := Escape(s[1..]) + [QUOTE] + rest;
      assert Escape(s) + [QUOTE] + rest == EscapeChar(s[0]) + t;
      UnquoteUndoesEscape(s[1..], rest);
      UnquoteChar(s[0], t);
      hide Unquote, EscapeChar;
      assert s == [s[0]] + s[1..];
    }
  }

  // One character, escaped.
  method PutChar(a: array<char>, dest: nat, c: char) returns (next: nat)
    requires dest + 2 <= a.Length
    modifies a
    ensures next == dest + |EscapeChar(c)| && forall i :: dest <= i < next ==> a[i] == EscapeChar(c)[i - dest]
    ensures forall i :: 0 <= i < dest || dest + 2 <= i < a.Length ==> a[i] == old(a[i])
  {
    if c == SLASH {
      a[dest], a[dest + 1] := SLASH, SLASH;
      next := dest + 2;
    } else if c == '\t' {
      a[dest], a[dest + 1] := SLASH, 't';
      next := dest + 2;
    } else if c == '\n' {
      a[dest], a[dest + 1] := SLASH, 'n';
      next := dest + 2;
    } else if c == QUOTE {
      a[dest], a[dest + 1] := SLASH, QUOTE;
      next := dest + 2;
    } else {
      a[dest] := c;
      next := dest + 1;
    }
  }

  // JSONescapeString: write the escaped string and a terminator into a buffer with room for the worst
  // case.
  method EscapeInto(a: array<char>, at: nat, value: string) returns (len: nat)
    requires at + 2 * |value| + 1 <= a.Length
    modifies a
    ensures len == |Escape(value)| && a[at..at + len] == Escape(value) && a[at + len] == NUL
    ensures forall i :: 0 <= i < at || at + 2 * |value| + 1 <= i < a.Length ==> a[i] == old(a[i])
  {
    hide EscapeChar;
    var dest := at;
    var bytes := 0;
    while bytes < |value|
      invariant 0 <= bytes <= |value| && dest == at + |Escape(value[..bytes])| && dest <= at + 2 * bytes
      invariant forall i :: at <= i < dest ==> a[i] == Escape(value[..bytes])[i - at]
      invariant forall i :: 0 <= i < at || at + 2 * |value| + 1 <= i < a.Length ==> a[i] == old(a[i])
    {
      EscapeNext(value, bytes);
      dest := PutChar(a, dest, value[bytes]);
      bytes := bytes + 1;
    }
    assert value[..|value|] == value;
    a[dest] := NUL;
    len := dest - at;
    assert forall i :: 0 <= i < len ==> a[at..at + len][i] == Escape(value)[i];
  }

  lemma EscapeNext(s: string, n: nat)
    requires n < |s|
    ensures Escape(s[..n + 1]) == Escape(s[..n]) + EscapeChar(s[n])
  {
    assert s[..n + 1] == s[..n] + [s[n]];
    EscapeConcat(s[..n], [s[n]]);
    assert Escape([s[n]]) == EscapeChar(s[n]) + Escape([s[n]][1..]);
  }

  // -------------------------------------------------------------------------
  // Reading in place
  // -------------------------------------------------------------------------

  // What is left to read at position k, with `done` read so far, makes up the whole.
  ghost predicate Reading(text: string, k: nat, done: string) {
    k <= |text| && Joined(done, Unquote(text[k..])) == Unquote(text)
  }

  // One escape: the character it stands for is written behind the reader.
  method PutUnescaped(a: array<char>, dst: nat, c: char) returns (next: nat)
    requires dst < a.Length
    modifies a
    ensures next == dst + |Unescaped(c)| && forall i :: dst <= i < next ==> a[i] == Unescaped(c)[i - dst]
    ensures forall i :: 0 <= i < dst || dst < i < a.Length ==> a[i] == old(a[i])
  {
    next := dst;
    if c == QUOTE {
      a[dst] := QUOTE;
      next := dst + 1;
    } else if c == SLASH {
      a[dst] := SLASH;
      next := dst + 1;
    } else if c == 't' {
      a[dst] := '\t';
      next := dst + 1;
    } else if c == 'n' {
      a[dst] := '\n';
      next := dst + 1;
    }
  }

  // Where the reader stands: `done` has been written from `start` on, behind the position, and the rest
  // of the buffer is as it was.
  ghost predicate Copying(now: seq<char>, was: seq<char>, start: nat, end: nat, pos: nat, done: string) {
    && |now| == |was| && start + |done| <= pos <= end < |was| && was[end] == NUL && NulFree(was[start..end])
    && (forall i :: 0 <= i < |done| ==> now[start + i] == done[i])
    && (forall i :: 0 <= i < start || pos <= i < |was| ==> now[i] == was[i])
    && Reading(was[start..end], pos - start, done)
  }

  // The character at the position is still the one to be read.
  lemma CopyingAt(now: seq<char>, was: seq<char>, start: nat, end: nat, pos: nat, done: string)
    requires Copying(now, was, start, end, pos, done)
    ensures start + |done| <= pos <= end < |now| == |was| && now[pos] == was[pos] && (now[pos] == NUL <==> pos == end)
    ensures pos < end ==> now[pos + 1] == was[pos + 1] && (now[pos + 1] == NUL <==> pos + 1 == end)
    ensures pos == end || (now[pos] == SLASH && pos + 1 == end) ==> Unquote(was[start..end]).None?
    ensures now[pos] == QUOTE ==> Unquote(was[start..end]) == Some((done, was[pos + 1..end]))
  {
    CopyingText(was, start, end, pos);
    EndReading(was[start..end], pos - start, done);
    hide Unquote, Reading, NulFree;
  }

  lemma CopyingText(was: seq<char>, start: nat, end: nat, pos: nat)
    requires start <= pos <= end < |was| && was[end] == NUL && NulFree(was[start..end])
    ensures pos < end ==> was[start..end][pos - start] == was[pos] != NUL && was[start..end][pos + 1 - start..] == was[pos + 1..end]
    ensures pos + 1 < end ==> was[pos + 1] != NUL
  {
    assert pos + 1 < end ==> was[start..end][pos + 1 - start] == was[pos + 1];
  }

  method CopyEscape(a: array<char>, ghost was: seq<char>, start: nat, ghost end: nat, pos: nat, dst: nat, ghost done: string) returns (next: nat)
    requires Copying(a[..], was, start, end, pos, done) && pos + 1 < end && a[pos] == SLASH && dst == start + |done|
    modifies a
    ensures Copying(a[..], was, start, end, pos + 2, done + Unescaped(was[pos + 1])) && next == dst + |Unescaped(was[pos + 1])|
  {
    hide Unquote, Reading;
    assert a[..][pos + 1] == was[pos + 1] && a[..][pos] == was[pos];
    assert was[start..end][pos - start] == SLASH && was[start..end][pos + 1 - start] == was[pos + 1];
    SlashStep(was[start..end], pos - start, done);
    next := PutUnescaped(a, dst, a[pos + 1]);
  }

  method CopyPlain(a: array<char>, ghost was: seq<char>, start: nat, ghost end: nat, pos: nat, dst: nat, modifying: bool, ghost done: string)
    requires Copying(a[..], was, start, end, pos, done) && pos < end && a[pos] != SLASH && a[pos] != QUOTE
    requires dst == start + |done| && (!modifying ==> dst == pos)
    modifies a
    ensures Copying(a[..], was, start, end, pos + 1, done + [was[pos]])
  {
    hide Unquote, Reading;
    assert a[..][pos] == was[pos] && was[start..end][pos - start] == was[pos];
    PlainStep(was[start..end], pos - start, done);
    if modifying {
      a[dst] := a[pos];
    }
  }

  // Overwrite the text up to the terminator at `end` with what it stands for, up to the closing quote,
  // never ahead of what is still to be read.
  method CopyUnescaped(a: array<char>, start: nat, ghost end: nat) returns (pos: nat, dst: nat, ghost done: string)
    requires start <= end < a.Length && a[end] == NUL && NulFree(a[start..end])
    modifies a
    ensures Copying(a[..], old(a[..]), start, end, pos, done) && dst == start + |done|
    ensures a[pos] != QUOTE ==> Unquote(old(a[start..end])).None?
  {
    ghost var was := a[..];
    assert was[start..end] == a[start..end];
    pos, dst, done := start, start, [];
    var modifying := false;
    StartReading(was[start..end]);
    assert Copying(a[..], was, start, end, pos, done);
    hide Copying, Reading, Unquote, Unescaped;
    CopyingAt(a[..], was, start, end, pos, done);
    while a[pos] != NUL
      invariant Copying(a[..], was, start, end, pos, done) && pos < a.Length
      invariant dst == start + |done| && (!modifying ==> dst == pos)
      invariant a[pos] == NUL ==> Unquote(was[start..end]).None?
      decreases end - pos
    {
      CopyingAt(a[..], was, start, end, pos, done);
      if a[pos] == SLASH {
        if a[pos + 1] == NUL {
          break;
        }
        ghost var c := was[pos + 1];
        dst := CopyEscape(a, was, start, end, pos, dst, done);
        done := done + Unescaped(c);
        modifying := true;
        pos := pos + 2;
      } else if a[pos] == QUOTE {
        break;
      } else {
        ghost var c := was[pos];
        CopyPlain(a, was, start, end, pos, dst, modifying, done);
        done := done + [c];
        dst := dst + 1;
        pos := pos + 1;
      }
      CopyingAt(a[..], was, start, end, pos, done);
    }
  }

  // JSONGetString behind the opening quote: the string is left terminated where it stood.
  method ReadString(a: array<char>, start: nat, end: nat) returns (ok: bool, next: nat, ghost value: string)
    requires start <= end < a.Length && a[end] == NUL && NulFree(a[start..end])
    modifies a
    ensures ok <==> Unquote(old(a[start..end])).Some?
    ensures ok ==> start + |value| < next <= end && Unquote(old(a[start..end])) == Some((value, old(a[next..end])))
    ensures ok ==> a[start + |value|] == NUL && forall i :: 0 <= i < |value| ==> a[start + i] == value[i]
    ensures ok ==> forall i :: 0 <= i < start || next <= i < a.Length ==> a[i] == old(a[i])
  {
    ghost var was := a[..];
    assert was[start..end] == a[start..end];
    var pos, dst, done := CopyUnescaped(a, start, end);
    CopyingAt(a[..], was, start, end, pos, done);
    if a[pos] != QUOTE {
      return false, pos, [];
    }
    assert was[pos + 1..end] == old(a[pos + 1..end]);
    a[dst] := NUL;
    return true, pos + 1, done;
  }

  lemma StartReading(text: string)
    ensures Reading(text, 0, [])
  {
    assert text[0..] == text;
    var r := Unquote(text);
    if r.Some? { assert [] + r.value.0 == r.value.0; }
  }

  // The end of the text, or a lone backslash there, is a failure; a quote ends the string.
  lemma EndReading(text: string, k: nat, done: string)
    requires k <= |text|
    ensures k == |text| && Reading(text, k, done) ==> Unquote(text).None?
    ensures k + 1 == |text| && text[k] == SLASH && Reading(text, k, done) ==> Unquote(text).None?
    ensures k < |text| && text[k] == QUOTE && Reading(text, k, done) ==> Unquote(text) == Some((done, text[k + 1..]))
  {
    if k < |text| && text[k] == QUOTE {
      assert text[k..][1..] == text[k + 1..] && text[k..][0] == QUOTE;
      assert done + [] == done;
    }
  }

  lemma SlashStep(text: string, k: nat, done: string)
    requires k + 1 < |text| && text[k] == SLASH
    ensures Reading(text, k, done) ==> Reading(text, k + 2, done + Unescaped(text[k + 1]))
  {
    assert text[k..][2..] == text[k + 2..] && text[k..][1] == text[k + 1];
    var r := Unquote(text[k + 2..]);
    if r.Some? { assert done + (Unescaped(text[k + 1]) + r.value.0) == done + Unescaped(text[k + 1]) + r.value.0; }
  }

  lemma PlainStep(text: string, k: nat, done: string)
    requires k < |text| && text[k] != SLASH && text[k] != QUOTE
    ensures Reading(text, k, done) ==> Reading(text, k + 1, done + [text[k]])
  {
    assert text[k..][1..] == text[k + 1..];
    var r := Unquote(text[k + 1..]);
    if r.Some? { assert done + ([text[k]] + r.value.0) == done + [text[k]] + r.value.0; }
  }
}
