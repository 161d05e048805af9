/**
 From what stateSaveCmd and the background save write to what recovery replays.

 Each record is written behind a blank that a later save may turn into '*'; a journal that has been
 rolled over ends in a '$' line; behind the last line lies the reserve of NUL bytes.
 */
module JournalRoundTrip {
  import opened JournalRecovery

  datatype Entry = Entry(committed: bool, body: string)

  datatype Journal = Journal(entries: seq<Entry>, closed: bool, reserve: nat)

  predicate PlainText(s: string) {
    forall i :: 0 <= i < |s| ==> s[i] != '\n' && s[i] != NUL
  }

  predicate ValidEntries(es: seq<Entry>) {
    forall i :: 0 <= i < |es| ==> PlainText(es[i].body)
  }

  predicate Valid(js: seq<Journal>) {
    forall i :: 0 <= i < |js| ==> ValidEntries(js[i].entries)
  }

  function EntryLine(e: Entry): string {
    [if e.committed then '*' else ' '] + e.body + "\n"
  }

  function Body(es: seq<Entry>): string {
    if es == [] then "" else EntryLine(es[0]) + Body(es[1..])
  }

  function Tail(j: Journal): string {
    (if j.closed then "$\n" else "") + seq(j.reserve, i => NUL)
  }

  // The bytes of a journal file.
  function Image(j: Journal): string {
    Body(j.entries) + Tail(j)
  }

  function Images(js: seq<Journal>): seq<string> {
    if js == [] then [] else [Image(js[0])] + Images(js[1..])
  }

  // -------------------------------------------------------------------------
  // What is still to be done after a crash, in terms of the entries
  // -------------------------------------------------------------------------

  function Flat(js: seq<Journal>): seq<Entry> {
    if js == [] then [] else js[0].entries + Flat(js[1..])
  }

  predicate NoneCommitted(es: seq<Entry>) {
    forall i :: 0 <= i < |es| ==> !es[i].committed
  }

  function Outstanding(es: seq<Entry>): seq<Entry> {
    if NoneCommitted(es) then es else Outstanding(es[1..])
  }

  // The text a record is parsed from still has its leading blank.
  function Texts(es: seq<Entry>): seq<string> {
    if es == [] then [] else [(if es[0].committed then "*" else " ") + es[0].body] + Texts(es[1..])
  }

  // -------------------------------------------------------------------------
  // Lines of a written file
  // -------------------------------------------------------------------------

  // The end of a line is fixed by being its only newline, or the end of the file.
  lemma {:induction false} LineEndUnique(f: string, p: nat, q: nat)
    requires p < q <= |f| && (q == |f| || f[q - 1] == '\n') && forall k :: p <= k < q - 1 ==> f[k] != '\n'
    ensures LineEnd(f, p) == q
    decreases |f| - p
  {
    if f[p] != '\n' && p + 1 < |f| { LineEndUnique(f, p + 1, q); }
  }

  lemma LineEndSame(f: string, p: nat, g: string, q: nat)
    requires p < |f| && q < |g| && f[p..] == g[q..]
    ensures LineEnd(f, p) - p == LineEnd(g, q) - q
  {
    var e := LineEnd(f, p);
    assert forall k :: p <= k < |f| ==> f[k] == f[p..][k - p] == g[k - p + q];
    LineEndUnique(g, q, e - p + q);
  }

  // The lines from a position on depend only on the text from there on.
  lemma {:induction false} LinesSame(f: string, p: nat, g: string, q: nat)
    requires p <= |f| && q <= |g| && f[p..] == g[q..]
    ensures Lines(f, p) == Lines(g, q)
    decreases |f| - p
  {
    assert |f| - p == |f[p..]| == |g[q..]|;
    if p < |f| {
      LineEndSame(f, p, g, q);
      var e, d := LineEnd(f, p), LineEnd(g, q);
      assert f[p..e] == f[p..][..e - p] == g[q..][..d - q] == g[q..d];
      assert f[e..] == f[p..][e - p..] == g[q..][d - q..] == g[d..];
      LinesSame(f, e, g, d);
    }
  }

  lemma LinesOfOne(line: string, rest: string)
    requires line != [] && line[|line| - 1] == '\n' && forall k :: 0 <= k < |line| - 1 ==> line[k] != '\n'
    ensures Lines(line + rest, 0) == [line] + Lines(rest, 0)
  {
    var f := line + rest;
    LineEndUnique(f, 0, |line|);
    assert f[0..|line|] == line;
    assert f[|line|..] == rest;
    LinesSame(f, |line|, rest, 0);
  }

  lemma ReserveLines(n: nat)
    ensures var z := seq(n, i => NUL); Lines(z, 0) == (if n == 0 then [] else [z])
    ensures n > 0 ==> Text(seq(n, i => NUL)) == []
  {
    var z := seq(n, i => NUL);
    if n > 0 {
      LineEndUnique(z, 0, n);
      assert z[0..n] == z;
    }
  }

  lemma TailLines(j: Journal)
    ensures NoneMarked(Lines(Tail(j), 0)) && Records(Lines(Tail(j), 0)) == []
  {
    var z := seq(j.reserve, i => NUL);
    ReserveLines(j.reserve);
    assert Records(Lines(z, 0)) == [] by { if j.reserve > 0 { assert Lines(z, 0)[1..] == []; } }
    if j.closed {
      LinesOfOne("$\n", z);
      assert "$\n"[1..] == "\n";
      assert Text("$\n") == "$";
      var all := Lines(Tail(j), 0);
      assert all == ["$\n"] + Lines(z, 0) && all[1..] == Lines(z, 0);
    } else {
      assert Tail(j) == z;
      if j.reserve > 0 { assert Lines(z, 0) == [z]; }
    }
  }

  lemma {:induction false} TextOfLine(s: string)
    requires PlainText(s)
    ensures Text(s + "\n") == s
  {
    if s == [] {
      assert s + "\n" == "\n";
    } else {
      assert (s + "\n")[1..] == s[1..] + "\n";
      TextOfLine(s[1..]);
    }
  }

  lemma EntryLineFacts(e: Entry)
    requires PlainText(e.body)
    ensures var l := EntryLine(e); l != [] && l[|l| - 1] == '\n' && forall k :: 0 <= k < |l| - 1 ==> l[k] != '\n'
    ensures Marked(EntryLine(e)) <==> e.committed
    ensures Text(EntryLine(e)) == (if e.committed then "*" else " ") + e.body
  {
    TextOfLine((if e.committed then "*" else " ") + e.body);
    assert EntryLine(e) == (if e.committed then "*" else " ") + e.body + "\n";
  }

  // The lines say about marks and records what the entries say.
  ghost predicate Reflects(lines: seq<string>, es: seq<Entry>) {
    && (NoneMarked(lines) <==> NoneCommitted(es))
    && Records(lines) == Texts(es)
    && Records(AfterLastMark(lines)) == Texts(Outstanding(es))
  }

  lemma ReflectsCons(e: Entry, lines: seq<string>, es: seq<Entry>)
    requires PlainText(e.body) && Reflects(lines, es)
    ensures Reflects([EntryLine(e)] + lines, [e] + es)
  {
    var l := EntryLine(e);
    EntryLineFacts(e);
    LineInFront(l, lines);
    assert ([l] + lines)[1..] == lines && ([e] + es)[1..] == es;
    assert NoneCommitted([e] + es) <==> NoneCommitted(es) && !e.committed by {
      assert forall i :: 0 <= i < |es| ==> ([e] + es)[i + 1] == es[i];
      assert ([e] + es)[0] == e;
    }
  }

  lemma ImageStep(j: Journal)
    requires j.entries != []
    ensures Image(j) == EntryLine(j.entries[0]) + Image(j.(entries := j.entries[1..]))
  {
    hide EntryLine;
  }

  lemma {:induction false} ImageReflects(j: Journal)
    requires ValidEntries(j.entries)
    ensures Reflects(Lines(Image(j), 0), j.entries)
    decreases |j.entries|
  {
    if j.entries == [] {
      assert Image(j) == Tail(j);
      TailLines(j);
    } else {
      var e, j1 := j.entries[0], j.(entries := j.entries[1..]);
      hide Image, Reflects, Lines, EntryLine, PlainText;
      ImageReflects(j1);
      ImageStep(j);
      assert j.entries == [e] + j1.entries;
      ReflectsMore(e, Image(j1), j1.entries);
    }
  }

  lemma ReflectsMore(e: Entry, rest: string, es: seq<Entry>)
    requires PlainText(e.body) && Reflects(Lines(rest, 0), es)
    ensures Reflects(Lines(EntryLine(e) + rest, 0), [e] + es)
  {
    EntryLineFacts(e);
    hide Reflects, Lines, EntryLine;
    LinesOfOne(EntryLine(e), rest);
    ReflectsCons(e, Lines(rest, 0), es);
  }

  // -------------------------------------------------------------------------
  // Several journals
  // -------------------------------------------------------------------------

  lemma {:induction false} PendingConcat(a: seq<string>, b: seq<string>)
    ensures AfterLastMark(a + b) == if NoneMarked(b) then AfterLastMark(a) + b else AfterLastMark(b)
    decreases |a|
  {
    NoneMarkedConcat(a, b);
    if a == [] {
      assert a + b == b;
    } else if !NoneMarked(a + b) {
      assert (a + b)[1..] == a[1..] + b;
      PendingConcat(a[1..], b);
    }
  }

  lemma {:induction false} OutstandingConcat(a: seq<Entry>, b: seq<Entry>)
    ensures Outstanding(a + b) == if NoneCommitted(b) then Outstanding(a) + b else Outstanding(b)
    ensures Texts(a + b) == Texts(a) + Texts(b)
    ensures NoneCommitted(a + b) <==> NoneCommitted(a) && NoneCommitted(b)
    decreases |a|
  {
    assert NoneCommitted(a + b) <==> NoneCommitted(a) && NoneCommitted(b) by {
      if NoneCommitted(a + b) {
        forall i | 0 <= i < |a| ensures !a[i].committed { assert (a + b)[i] == a[i]; }
        forall i | 0 <= i < |b| ensures !b[i].committed { assert (a + b)[|a| + i] == b[i]; }
      }
    }
    if a == [] {
      assert a + b == b;
    } else {
      assert (a + b)[1..] == a[1..] + b;
      OutstandingConcat(a[1..], b);
    }
  }

  lemma NoneMarkedConcat(a: seq<string>, b: seq<string>)
    ensures NoneMarked(a + b) <==> NoneMarked(a) && NoneMarked(b)
  {
    if NoneMarked(a + b) {
      forall i | 0 <= i < |a| ensures !Marked(a[i]) { assert (a + b)[i] == a[i]; }
      forall i | 0 <= i < |b| ensures !Marked(b[i]) { assert (a + b)[|a| + i] == b[i]; }
    }
  }

  lemma ReflectsConcat(a: seq<string>, b: seq<string>, es: seq<Entry>, fs: seq<Entry>)
    requires Reflects(a, es) && Reflects(b, fs)
    ensures Reflects(a + b, es + fs)
  {
    NoneMarkedConcat(a, b);
    PendingConcat(a, b);
    RecordsConcat(a, b);
    RecordsConcat(AfterLastMark(a), b);
    OutstandingConcat(es, fs);
    OutstandingConcat(Outstanding(es), fs);
    hide Records, Texts, AfterLastMark, Outstanding, NoneMarked, NoneCommitted;
  }

  // Recovery of written journals: the texts of exactly the records behind the last committed one,
  // across all journals, in the order in which they were written.
  lemma {:induction false} RecoveryOfWritten(js: seq<Journal>)
    requires Valid(js)
    ensures Records(AfterLastMark(AllLines(Images(js)))) == Texts(Outstanding(Flat(js)))
    ensures Reflects(AllLines(Images(js)), Flat(js))
  {
    if js != [] {
      ImageReflects(js[0]);
      RecoveryOfWritten(js[1..]);
      assert Images(js)[1..] == Images(js[1..]);
      hide Lines, Image;
      ReflectsConcat(Lines(Image(js[0]), 0), AllLines(Images(js[1..])), js[0].entries, Flat(js[1..]));
    }
  }
}
