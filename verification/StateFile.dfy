/**
 The strings of a job in its state file: one line each, escaped so that they stay on it, read back by
 key and undone in place.
 */
module StateFile {

  const NUL: char := 0 as char
  const SLASH := '\\'

  // -------------------------------------------------------------------------
  // Escapes
  // -------------------------------------------------------------------------

  function EscapeChar(c: char): string {
    if c == SLASH then [SLASH, SLASH] else if c == '\n' then [SLASH, 'n'] else if c == '\t' then [SLASH, 't'] else [c]
  }

  function Escape(s: string): string {
    if s == [] then [] else EscapeChar(s[0]) + Escape(s[1..])
  }

  // What replaces a backslash and the character behind it; the backslash stays if that is none of the
  // three.
  function Undone(c: char): char {
    if c == 'n' then '\n' else if c == 't' then '\t' else SLASH
  }

  function Unescape(s: string): (u: string)
    ensures |u| <= |s|
  {
    if s == [] then []
    else if s[0] != SLASH then [s[0]] + Unescape(s[1..])
    else if |s| == 1 then s
    else [Undone(s[1])] + Unescape(s[2..])
  }

  // Every backslash has a character behind it. The source reads past the end of a text otherwise.
  predicate Paired(s: string) {
    s == [] || (if s[0] != SLASH then Paired(s[1..]) else |s| > 1 && Paired(s[2..]))
  }

  lemma UnescapeChar(c: char, t: string)
    ensures Unescape(EscapeChar(c) + t) == [c] + Unescape(t) && (Paired(EscapeChar(c) + t) <==> Paired(t))
  {
    var e := EscapeChar(c);
    if |e| == 2 {
      assert (e + t)[0] == SLASH && (e + t)[1] == e[1] && (e + t)[2..] == t;
    } else {
      assert (e + t)[0] == c && (e + t)[1..] == t;
    }
  }

  // Reading undoes writing, for every string.
  lemma {:induction false} UnescapeUndoesEscape(s: string)
    ensures Unescape(Escape(s)) == s && Paired(Escape(s))
  {
    if s != [] {
      UnescapeUndoesEscape(s[1..]);
      UnescapeChar(s[0], Escape(s[1..]));
    }
  }

  predicate OneLine(s: string) {
    '\n' !in s
  }

  lemma {:induction false} EscapeIsOneLine(s: string)
    ensures OneLine(Escape(s)) && '\t' !in Escape(s)
  {
    if s != [] { EscapeIsOneLine(s[1..]); }
  }

  // A text without escapes is its own meaning; one with an escape means something shorter.
  lemma {:induction false} UnescapeSameIff(s: string)
    requires Paired(s)
    ensures Unescape(s) == s <==> SLASH !in s
    ensures SLASH in s ==> |Unescape(s)| < |s|
  {
    if s != [] {
      if s[0] != SLASH {
        UnescapeSameIff(s[1..]);
        assert s == [s[0]] + s[1..];
      } else {
        UnescapeSameIff(s[2..]);
      }
    }
  }

  // -------------------------------------------------------------------------
  // Undoing in place
  // -------------------------------------------------------------------------

  // The buffer holds `done`, then what is still to be read, then a terminator.
  ghost predicate Undoing(a: seq<char>, start: nat, temp: nat, end: nat, done: string, rest: string) {
    && start <= temp <= end < |a| && a[end] == NUL && done == a[start..temp] && rest == a[temp..end]
    && Paired(rest) && forall i :: 0 <= i < |rest| ==> rest[i] != NUL
  }

  // unescapeString: each escape is replaced by one character and the tail moved up behind it.
  method UnescapeInPlace(a: array<char>, start: nat, end: nat) returns (ghost last: nat)
    requires start <= end < a.Length && a[end] == NUL && Paired(a[start..end])
    requires forall i :: start <= i < end ==> a[i] != NUL
    modifies a
    ensures start <= last <= end && a[last] == NUL && a[start..last] == Unescape(old(a[start..end]))
    ensures forall i :: 0 <= i < start || end < i < a.Length ==> a[i] == old(a[i])
  {
    ghost var text := a[start..end];
    var temp := start;
    last := end;
    ghost var done, rest: string := [], text;
    assert [] + Unescape(text) == Unescape(text);
    assert a[..][start..start] == [] && a[..][start..end] == text;
    assert Undoing(a[..], start, temp, last, done, rest);
    hide Undoing, Unescape, Paired, Undone;
    while true
      invariant Undoing(a[..], start, temp, last, done, rest) && last <= end
      invariant done + Unescape(rest) == Unescape(text)
      invariant forall i :: 0 <= i < start || end < i < a.Length ==> a[i] == old(a[i])
      decreases last - temp
    {
      UndoingAt(a[..], start, temp, last, done, rest);
      if a[temp] == NUL {
        break;
      }
      if a[temp] != SLASH {
        PlainStep(done, rest);
        PlainUndone(a[..], start, temp, last, done, rest);
        temp := temp + 1;
        done, rest := done + [rest[0]], rest[1..];
        continue;
      }
      EscapeStep(done, rest);
      UndoEscape(a, start, temp, last, done, rest);
      temp := temp + 1;
      last := last - 1;
      done, rest := done + [Undone(rest[1])], rest[2..];
    }
    assert done + [] == done;
  }

  lemma UndoingAt(a: seq<char>, start: nat, temp: nat, end: nat, done: string, rest: string)
    requires Undoing(a, start, temp, end, done, rest)
    ensures start <= temp <= end < |a| && a[end] == NUL && |rest| == end - temp && (a[temp] == NUL <==> rest == []) && Paired(rest)
    ensures rest == [] ==> temp == end && Unescape(rest) == [] && done == a[start..end]
    ensures rest != [] ==> rest[0] == a[temp]
  {
  }

  lemma PlainUndone(a: seq<char>, start: nat, temp: nat, end: nat, done: string, rest: string)
    requires Undoing(a, start, temp, end, done, rest) && rest != [] && rest[0] != SLASH
    ensures Undoing(a, start, temp + 1, end, done + [rest[0]], rest[1..])
  {
    assert a[start..temp + 1] == done + [rest[0]] && a[temp + 1..end] == rest[1..];
  }

  method UndoEscape(a: array<char>, start: nat, temp: nat, ghost end: nat, ghost done: string, ghost rest: string)
    requires Undoing(a[..], start, temp, end, done, rest) && |rest| > 1 && rest[0] == SLASH && Paired(rest[2..])
    modifies a
    ensures Undoing(a[..], start, temp + 1, end - 1, done + [Undone(rest[1])], rest[2..])
    ensures forall i :: 0 <= i < start || end < i < a.Length ==> a[i] == old(a[i])
  {
    hide Paired, Undone;
    assert forall i :: temp <= i < end ==> a[i] == rest[i - temp];
    var length := Strlen(a, temp + 2, end);
    UndoOne(a, temp, length);
    assert a[..][start..temp + 1] == done + [Undone(rest[1])];
    assert a[..][temp + 1..end - 1] == rest[2..];
  }

  method Strlen(a: array<char>, at: nat, ghost end: nat) returns (n: nat)
    requires at <= end < a.Length && a[end] == NUL && forall i :: at <= i < end ==> a[i] != NUL
    ensures at + n == end
  {
    n := 0;
    while a[at + n] != NUL
      invariant at + n <= end
      decreases end - n
    {
      n := n + 1;
    }
  }

  // One escape at temp: the character it stands for, and the tail with its terminator moved up by one.
  method UndoOne(a: array<char>, temp: nat, length: nat)
    requires temp + 2 + length < a.Length && a[temp] == SLASH
    modifies a
    ensures a[temp] == Undone(old(a[temp + 1]))
    ensures forall i :: temp < i <= temp + 1 + length ==> a[i] == old(a[i + 1])
    ensures forall i :: 0 <= i < temp || temp + 1 + length < i < a.Length ==> a[i] == old(a[i])
  {
    if a[temp + 1] == 'n' {
      a[temp] := '\n';
    } else if a[temp + 1] == SLASH {
      a[temp] := SLASH;
    } else if a[temp + 1] == 't' {
      a[temp] := '\t';
    }
    forall i | temp < i <= temp + 1 + length {
      a[i] := a[i + 1];
    }
  }

  lemma PlainStep(done: string, rest: string)
    requires rest != [] && rest[0] != SLASH
    ensures done + [rest[0]] + Unescape(rest[1..]) == done + Unescape(rest)
  {
    assert done + ([rest[0]] + Unescape(rest[1..])) == done + [rest[0]] + Unescape(rest[1..]);
  }

  lemma EscapeStep(done: string, rest: string)
    requires rest != [] && rest[0] == SLASH && Paired(rest)
    ensures |rest| > 1 && Paired(rest[2..])
    ensures done + [Undone(rest[1])] + Unescape(rest[2..]) == done + Unescape(rest)
  {
    assert done + ([Undone(rest[1])] + Unescape(rest[2..])) == done + [Undone(rest[1])] + Unescape(rest[2..]);
  }
}
