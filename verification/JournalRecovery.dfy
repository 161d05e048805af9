/**
 Reading the journals back after a restart.

 A journal is a file of newline-terminated lines, followed by the NUL bytes that were written to
 reserve space. A record starts with a blank, which a finished save turns into '*' on the last
 record it covers; a line starting with '$' closes a journal when the next day's is opened.
 */
module JournalRecovery {

  const NUL: char := 0 as char

  // The position after the line that starts at p, as getline finds it.
  function LineEnd(f: string, p: nat): (q: nat)
    requires p < |f|
    ensures p < q <= |f|
    ensures q == |f| || f[q - 1] == '\n'
    ensures forall k :: p <= k < q - 1 ==> f[k] != '\n'
    decreases |f| - p
  {
    if f[p] == '\n' || p + 1 == |f| then p + 1 else LineEnd(f, p + 1)
  }

  function Lines(f: string, p: nat): seq<string>
    decreases |f| - p
  {
    if p >= |f| then [] else [f[p..LineEnd(f, p)]] + Lines(f, LineEnd(f, p))
  }

  predicate Marked(line: string) {
    line != [] && line[0] == '*'
  }

  predicate NoneMarked(lines: seq<string>) {
    forall i :: 0 <= i < |lines| ==> !Marked(lines[i])
  }

  // The text of a line up to its newline or the first NUL: what C sees as the string.
  function Text(line: string): string {
    if line == [] || line[0] == '\n' || line[0] == NUL then [] else [line[0]] + Text(line[1..])
  }

  predicate IsRecord(text: string) {
    text != [] && text[0] != '$'
  }

  function Records(lines: seq<string>): seq<string> {
    if lines == [] then []
    else (if IsRecord(Text(lines[0])) then [Text(lines[0])] else []) + Records(lines[1..])
  }

  // -------------------------------------------------------------------------
  // What recovery has to replay, said of all journals at once
  // -------------------------------------------------------------------------

  function AllLines(journals: seq<string>): seq<string> {
    if journals == [] then [] else Lines(journals[0], 0) + AllLines(journals[1..])
  }

  // Everything behind the last marked line, or everything when none is marked.
  function AfterLastMark(lines: seq<string>): seq<string> {
    if NoneMarked(lines) then lines else AfterLastMark(lines[1..])
  }

  lemma {:induction false} AfterLastMarkSplits(lines: seq<string>)
    ensures NoneMarked(AfterLastMark(lines))
    ensures exists k :: 0 <= k <= |lines| && AfterLastMark(lines) == lines[k..]
                        && (k == 0 || Marked(lines[k - 1])) && (k == 0 ==> NoneMarked(lines))
  {
    if NoneMarked(lines) {
      assert lines == lines[0..];
    } else {
      AfterLastMarkSplits(lines[1..]);
      var k :| 0 <= k <= |lines[1..]| && AfterLastMark(lines[1..]) == lines[1..][k..]
               && (k == 0 || Marked(lines[1..][k - 1])) && (k == 0 ==> NoneMarked(lines[1..]));
      assert lines[1..][k..] == lines[k + 1..];
      if k == 0 { assert forall i :: 1 <= i < |lines| ==> lines[i] == lines[1..][i - 1]; }
    }
  }

  // The tail is what lies behind the last mark.
  predicate Behind(all: seq<string>, tail: seq<string>) {
    |tail| < |all| && NoneMarked(tail) && all[|all| - |tail|..] == tail && Marked(all[|all| - |tail| - 1])
  }

  lemma {:induction false} AfterLastMarkIs(all: seq<string>, tail: seq<string>)
    requires Behind(all, tail)
    ensures AfterLastMark(all) == tail
  {
    if |all| == |tail| + 1 {
      assert all[1..] == tail;
    } else {
      assert all[1..][|all[1..]| - |tail|..] == all[|all| - |tail|..];
      AfterLastMarkIs(all[1..], tail);
    }
  }

  lemma BehindConcat(early: seq<string>, all: seq<string>, tail: seq<string>, later: seq<string>)
    requires Behind(all, tail) && NoneMarked(later)
    ensures Behind(early + all + later, tail + later)
  {
    var whole := early + all + later;
    var at := |whole| - |tail + later|;
    assert at == |early| + |all| - |tail|;
    assert whole[at..] == tail + later;
    assert whole[at - 1] == all[|all| - |tail| - 1];
  }

  lemma {:induction false} RecordsConcat(a: seq<string>, b: seq<string>)
    ensures Records(a + b) == Records(a) + Records(b)
  {
    hide Text, IsRecord;
    if a == [] {
      assert a + b == b && Records(a) == [];
    } else {
      var first := if IsRecord(Text(a[0])) then [Text(a[0])] else [];
      assert (a + b)[1..] == a[1..] + b && (a + b)[0] == a[0];
      assert Records(a + b) == first + Records(a[1..] + b) && Records(a) == first + Records(a[1..]);
      RecordsConcat(a[1..], b);
      hide Records;
      Associate(first, Records(a[1..]), Records(b));
    }
  }

  lemma {:induction false} AllLinesConcat(a: seq<string>, b: seq<string>)
    ensures AllLines(a + b) == AllLines(a) + AllLines(b)
  {
    if a == [] {
      assert a + b == b;
    } else {
      assert (a + b)[1..] == a[1..] + b;
      AllLinesConcat(a[1..], b);
    }
  }

  // -------------------------------------------------------------------------
  // The loops
  // -------------------------------------------------------------------------

  // The scan for the last mark, from position p with the offset found so far.
  function LastCommitFrom(f: string, p: nat, last: int): int
    decreases |f| - p
  {
    if p >= |f| then last else LastCommitFrom(f, LineEnd(f, p), if f[p] == '*' then LineEnd(f, p) else last)
  }

  lemma {:induction false} LastCommitFound(f: string, p: nat, last: int)
    ensures NoneMarked(Lines(f, p)) ==> LastCommitFrom(f, p, last) == last
    ensures !NoneMarked(Lines(f, p)) ==>
              LastCommitFrom(f, p, last) >= 0 && Behind(Lines(f, p), Lines(f, LastCommitFrom(f, p, last)))
    decreases |f| - p
  {
    if p < |f| {
      var end := LineEnd(f, p);
      var line := f[p..end];
      LastCommitFound(f, end, if f[p] == '*' then end else last);
      LineInFront(line, Lines(f, end));
      if !NoneMarked(Lines(f, end)) {
        BehindConcat([line], Lines(f, end), Lines(f, LastCommitFrom(f, p, last)), []);
        assert [line] + Lines(f, end) + [] == Lines(f, p);
        assert Lines(f, LastCommitFrom(f, p, last)) + [] == Lines(f, LastCommitFrom(f, p, last));
      }
    }
  }

  lemma LineInFront(line: string, rest: seq<string>)
    ensures NoneMarked([line] + rest) <==> NoneMarked(rest) && !Marked(line)
    ensures NoneMarked(rest) && Marked(line) ==> Behind([line] + rest, rest)
  {
    var all := [line] + rest;
    assert all[1..] == rest && all[0] == line;
    assert forall i :: 0 <= i < |rest| ==> all[i + 1] == rest[i];
  }

  // Scan one journal for its last mark; the offset is that of the line behind it, -1 without a mark.
  method CheckForLastCommit(f: string) returns (lastCommit: int)
    ensures NoneMarked(Lines(f, 0)) ==> lastCommit == -1
    ensures !NoneMarked(Lines(f, 0)) ==> lastCommit >= 0 && Behind(Lines(f, 0), Lines(f, lastCommit))
  {
    lastCommit := -1;
    var pos := 0;
    while pos < |f|
      invariant LastCommitFrom(f, 0, -1) == LastCommitFrom(f, pos, lastCommit)
      decreases |f| - pos
    {
      var end := LineEnd(f, pos);
      if f[pos] == '*' {
        lastCommit := end;
      }
      pos := end;
    }
    LastCommitFound(f, 0, -1);
  }

  lemma RecordsOfLine(f: string, p: nat)
    requires p < |f|
    ensures var text := Text(f[p..LineEnd(f, p)]);
            Records(Lines(f, p)) == (if IsRecord(text) then [text] else []) + Records(Lines(f, LineEnd(f, p)))
  {
    assert Lines(f, p)[1..] == Lines(f, LineEnd(f, p));
  }

  // Replay one journal from an offset; a negative offset means from its start.
  method ReplayJournal(f: string, offset: int) returns (replayed: seq<string>)
    ensures replayed == Records(Lines(f, if offset >= 0 then offset else 0))
  {
    replayed := [];
    var pos := if offset >= 0 then offset else 0;
    ghost var start := pos;
    ReadSoFarStarts(f, start);
    hide ReadSoFar, Records, Lines, Text, IsRecord;
    while pos < |f|
      invariant 0 <= pos
      invariant ReadSoFar(f, start, pos, replayed)
      decreases |f| - pos
    {
      var text := Text(f[pos..LineEnd(f, pos)]);
      ReadSoFarStep(f, start, pos, replayed);
      if IsRecord(text) {
        replayed := replayed + [text];
      }
      pos := LineEnd(f, pos);
    }
    ReadSoFarEnds(f, start, pos, replayed);
  }

  // The records replayed up to a position, with those behind it, are all behind the start.
  ghost predicate ReadSoFar(f: string, start: nat, pos: nat, replayed: seq<string>) {
    Records(Lines(f, start)) == replayed + Records(Lines(f, pos))
  }

  lemma ReadSoFarStarts(f: string, start: nat)
    ensures ReadSoFar(f, start, start, [])
  {
    hide Records, Lines;
  }

  lemma ReadSoFarStep(f: string, start: nat, pos: nat, replayed: seq<string>)
    requires pos < |f| && ReadSoFar(f, start, pos, replayed)
    ensures var text := Text(f[pos..LineEnd(f, pos)]);
            ReadSoFar(f, start, LineEnd(f, pos), if IsRecord(text) then replayed + [text] else replayed)
  {
    var text := Text(f[pos..LineEnd(f, pos)]);
    RecordsOfLine(f, pos);
    hide Records, Lines, Text, IsRecord;
    Associate(replayed, if IsRecord(text) then [text] else [], Records(Lines(f, LineEnd(f, pos))));
    assert replayed + [] == replayed;
  }

  lemma ReadSoFarEnds(f: string, start: nat, pos: nat, replayed: seq<string>)
    requires pos >= |f| && ReadSoFar(f, start, pos, replayed)
    ensures replayed == Records(Lines(f, start))
  {
    assert Records(Lines(f, pos)) == [];
  }

  // The records of journal number k, counting from 0, and of all later ones.
  function RecordsFrom(journals: seq<string>, k: nat): seq<string>
    requires k <= |journals|
  {
    Records(AllLines(journals[k..]))
  }

  lemma RecordsOfJournal(journals: seq<string>, k: nat)
    requires k < |journals|
    ensures RecordsFrom(journals, k) == Records(Lines(journals[k], 0)) + RecordsFrom(journals, k + 1)
  {
    assert journals[k..][1..] == journals[k + 1..];
    RecordsConcat(Lines(journals[k], 0), AllLines(journals[k + 1..]));
  }

  // What is left to replay when the loop reaches journal number k.
  function Remaining(journals: seq<string>, i: nat, offset: nat, k: nat): seq<string>
    requires 1 <= i <= k <= |journals| + 1 && i <= |journals|
  {
    if k == i then Records(Lines(journals[i - 1], offset)) + RecordsFrom(journals, i) else RecordsFrom(journals, k - 1)
  }

  lemma RemainingStep(journals: seq<string>, i: nat, offset: nat, k: nat)
    requires 1 <= i <= k <= |journals|
    ensures Remaining(journals, i, offset, k)
            == Records(Lines(journals[k - 1], if k == i then offset else 0)) + Remaining(journals, i, offset, k + 1)
  {
    hide Records, Lines, RecordsFrom;
    var rest := RecordsFrom(journals, k);
    assert Remaining(journals, i, offset, k + 1) == rest;
    if k == i {
      assert Remaining(journals, i, offset, k) == Records(Lines(journals[k - 1], offset)) + rest;
    } else {
      RecordsOfJournal(journals, k - 1);
      assert Remaining(journals, i, offset, k) == Records(Lines(journals[k - 1], 0)) + rest;
    }
  }

  // What the loop has replayed when it reaches journal number k, with what is left, is what it owes.
  ghost predicate Halfway(journals: seq<string>, i: nat, offset: nat, k: nat, replayed: seq<string>) {
    && 1 <= i <= k <= |journals| + 1 && i <= |journals|
    && Remaining(journals, i, offset, i) == replayed + Remaining(journals, i, offset, k)
  }

  lemma Associate(a: seq<string>, b: seq<string>, c: seq<string>)
    ensures a + (b + c) == a + b + c
  {
  }

  lemma HalfwayStep(journals: seq<string>, i: nat, offset: nat, k: nat, replayed: seq<string>, part: seq<string>)
    requires k <= |journals| && Halfway(journals, i, offset, k, replayed)
    requires part == Records(Lines(journals[k - 1], if k == i then offset else 0))
    ensures Halfway(journals, i, offset, k + 1, replayed + part)
  {
    RemainingStep(journals, i, offset, k);
    hide Remaining, Records, Lines;
    Associate(replayed, part, Remaining(journals, i, offset, k + 1));
  }

  lemma HalfwayStarts(journals: seq<string>, i: nat, offset: nat)
    requires 1 <= i <= |journals|
    ensures Halfway(journals, i, offset, i, [])
  {
    hide Remaining;
  }

  lemma HalfwayEnds(journals: seq<string>, i: nat, offset: nat, replayed: seq<string>)
    requires Halfway(journals, i, offset, |journals| + 1, replayed)
    ensures 1 <= i <= |journals| && replayed == Records(Lines(journals[i - 1], offset) + AllLines(journals[i..]))
  {
    RemainingEnds(journals, i, offset);
    hide Remaining, Records, Lines, AllLines;
    assert replayed + [] == replayed;
  }

  lemma RemainingEnds(journals: seq<string>, i: nat, offset: nat)
    requires 1 <= i <= |journals|
    ensures Remaining(journals, i, offset, i) == Records(Lines(journals[i - 1], offset) + AllLines(journals[i..]))
    ensures Remaining(journals, i, offset, |journals| + 1) == []
  {
    RecordsConcat(Lines(journals[i - 1], offset), AllLines(journals[i..]));
    assert journals[|journals|..] == [];
  }

  // Replay journal number i from an offset and all later journals from their start.
  method ReplayFrom(journals: seq<string>, i: nat, offset: nat) returns (replayed: seq<string>)
    requires 1 <= i <= |journals|
    ensures replayed == Records(Lines(journals[i - 1], offset) + AllLines(journals[i..]))
  {
    replayed := [];
    var k, off := i, offset as int;
    hide Halfway, Records, Lines, AllLines;
    HalfwayStarts(journals, i, offset);
    while k <= |journals|
      invariant i <= k <= |journals| + 1
      invariant off == if k == i then offset as int else -1
      invariant Halfway(journals, i, offset, k, replayed)
    {
      var part := ReplayJournal(journals[k - 1], off);
      HalfwayStep(journals, i, offset, k, replayed, part);
      replayed := replayed + part;
      off := -1;
      k := k + 1;
    }
    HalfwayEnds(journals, i, offset, replayed);
  }

  lemma MarkedJournal(journals: seq<string>, i: nat, offset: nat)
    requires 1 <= i <= |journals| && NoneMarked(AllLines(journals[i..]))
    requires Behind(Lines(journals[i - 1], 0), Lines(journals[i - 1], offset))
    ensures AfterLastMark(AllLines(journals)) == Lines(journals[i - 1], offset) + AllLines(journals[i..])
  {
    var f := journals[i - 1];
    assert journals == journals[..i - 1] + journals[i - 1..];
    AllLinesConcat(journals[..i - 1], journals[i - 1..]);
    assert journals[i - 1..][1..] == journals[i..];
    assert AllLines(journals) == AllLines(journals[..i - 1]) + Lines(f, 0) + AllLines(journals[i..]);
    BehindConcat(AllLines(journals[..i - 1]), Lines(f, 0), Lines(f, offset), AllLines(journals[i..]));
    AfterLastMarkIs(AllLines(journals), Lines(f, offset) + AllLines(journals[i..]));
  }

  // Look through the journals newest first for the last mark, then replay from there to the end:
  // exactly the records behind the last mark of all journals, in order and once each.
  method StateReplayJournal(journals: seq<string>) returns (replayed: seq<string>)
    ensures replayed == Records(AfterLastMark(AllLines(journals)))
  {
    if journals == [] {
      return [];
    }
    var offset := -1;
    var i := |journals|;
    while i > 0
      invariant 0 <= i <= |journals|
      invariant offset == -1
      invariant NoneMarked(AllLines(journals[i..]))
    {
      offset := CheckForLastCommit(journals[i - 1]);
      if offset >= 0 {
        break;
      }
      assert journals[i - 1..][1..] == journals[i..];
      i := i - 1;
    }
    if offset == -1 {
      offset := 0;
      i := 1;
      assert journals[0..] == journals && journals[1..] == journals[0..][1..];
    } else {
      MarkedJournal(journals, i, offset);
    }
    replayed := ReplayFrom(journals, i, offset);
  }

  // No replayed record starts with the mark, which the record parser could not read.
  lemma {:induction false} ReplayedAreUnmarked(lines: seq<string>)
    requires NoneMarked(lines)
    ensures forall r :: r in Records(lines) ==> IsRecord(r) && r[0] != '*'
  {
    if lines != [] {
      assert forall i :: 0 <= i < |lines[1..]| ==> lines[1..][i] == lines[i + 1];
      ReplayedAreUnmarked(lines[1..]);
    }
  }
}
