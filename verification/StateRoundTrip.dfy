/**
 Loading a saved job gives its strings and arguments back, its environment exactly when that holds no
 newline and no backslash, and its tags exactly when their keys hold no newline, tab or backslash.
 */
module StateRoundTrip {
  import opened Options
  import opened StateFile
  import opened StateLines
  import Decimal

  // -------------------------------------------------------------------------
  // Lines
  // -------------------------------------------------------------------------

  predicate AllOneLine(lines: seq<string>) {
    forall i :: 0 <= i < |lines| ==> OneLine(lines[i])
  }

  lemma {:induction false} IndexOfFirst(s: string, c: char, rest: string)
    requires c !in s
    ensures IndexOf(s + [c] + rest, c) == |s|
  {
    if s == [] {
      assert s + [c] + rest == [c] + rest;
    } else {
      assert (s + [c] + rest)[1..] == s[1..] + [c] + rest;
      IndexOfFirst(s[1..], c, rest);
    }
  }

  lemma LineParted(line: string, rest: string)
    ensures var f := line + ['\n'] + rest; f != [] && f[..|line|] == line && f[|line| + 1..] == rest
  {
  }

  lemma {:induction false} SplitOfJoined(lines: seq<string>)
    requires AllOneLine(lines)
    ensures Split(Joined(lines)) == lines
  {
    if lines != [] {
      var f, rest := Joined(lines), Joined(lines[1..]);
      assert OneLine(lines[0]);
      IndexOfFirst(lines[0], '\n', rest);
      LineParted(lines[0], rest);
      SplitOfJoined(lines[1..]);
      hide IndexOf, Joined;
    }
  }

  // -------------------------------------------------------------------------
  // Keys
  // -------------------------------------------------------------------------

  predicate KeyChars(s: string) {
    s != [] && s[0] != '#' && forall i :: 0 <= i < |s| ==> s[i] != ' ' && s[i] != '\t' && s[i] != '[' && s[i] != '\n'
  }

  lemma {:induction false} BlankBehind(s: string, rest: string)
    requires forall i :: 0 <= i < |s| ==> s[i] != ' ' && s[i] != '\t'
    ensures BlankAt(s + " " + rest) == |s|
  {
    if s == [] {
      assert s + " " + rest == " " + rest;
    } else {
      assert (s + " " + rest)[1..] == s[1..] + " " + rest;
      BlankBehind(s[1..], rest);
    }
  }

  lemma {:induction false} IndexAbsent(s: string, c: char)
    requires c !in s
    ensures IndexOf(s, c) == |s|
  {
    if s != [] { IndexAbsent(s[1..], c); }
  }

  // A plain key.
  lemma KeyValueOf(key: string, text: string)
    requires KeyChars(key)
    ensures KeyValue(key + " " + text) == Some(Parsed(key, 0, Unescape(text)))
  {
    var line := key + " " + text;
    assert line[0] == key[0];
    BlankBehind(key, text);
    assert line[..|key|] == key && line[|key| + 1..] == text;
    IndexAbsent(key, '[');
    assert key[..|key|] == key;
    hide Unescape;
  }

  // A key with an index.
  lemma IndexedKeyValueOf(key: string, i: nat, text: string)
    requires KeyChars(key)
    ensures KeyValue(key + "[" + Decimal.Digits(i) + "]" + " " + text) == Some(Parsed(key, i, Unescape(text)))
  {
    var d := Decimal.Digits(i);
    var full := key + "[" + d + "]";
    DigitsAreKeyChars(i);
    assert forall k :: 0 <= k < |full| ==> full[k] != ' ' && full[k] != '\t';
    var line := full + " " + text;
    assert line[0] == key[0];
    BlankBehind(full, text);
    assert line[..|full|] == full && line[|full| + 1..] == text;
    IndexOfFirst(key, '[', d + "]");
    assert full == key + ['['] + (d + "]");
    assert full[..|key|] == key && full[|key| + 1..] == d + "]";
    Decimal.ReadUndoesNotation(i, "]");
    hide Unescape;
  }

  lemma DigitsAreKeyChars(i: nat)
    ensures forall k :: 0 <= k < |Decimal.Digits(i)| ==> Decimal.IsDigit(Decimal.Digits(i)[k])
    ensures KeyChars(Decimal.Digits(i)) && SLASH !in Decimal.Digits(i)
  {
  }

  lemma KeysAreKnown()
    ensures forall k :: KeyChars(StrKey(k)) && StrOf(StrKey(k)) == Some(k)
    ensures forall l :: KeyChars(ListKey(l)) && StrOf(ListKey(l)) == None && CountOf(ListKey(l)) == None && EntryOf(ListKey(l)) == Some(l)
    ensures forall l :: KeyChars(CountKey(l)) && StrOf(CountKey(l)) == None && CountOf(CountKey(l)) == Some(l)
  {
    forall k ensures KeyChars(StrKey(k)) && StrOf(StrKey(k)) == Some(k) {
      match k case Name => case Shell => case Pre => case Post => case Out => case Err =>
    }
    forall l ensures KeyChars(ListKey(l)) && StrOf(ListKey(l)) == None && CountOf(ListKey(l)) == None && EntryOf(ListKey(l)) == Some(l) {
      match l case Args => case Envs => case Tags =>
    }
    forall l ensures KeyChars(CountKey(l)) && StrOf(CountKey(l)) == None && CountOf(CountKey(l)) == Some(l) {
      match l case Args => case Envs => case Tags =>
    }
  }

  // -------------------------------------------------------------------------
  // Loading what was written
  // -------------------------------------------------------------------------

  lemma {:induction false} LoadConcat(r: Loaded, a: seq<string>, b: seq<string>)
    ensures LoadLines(r, a + b) == LoadLines(LoadLines(r, a), b)
    decreases a
  {
    if a == [] {
      assert a + b == b;
    } else {
      assert (a + b)[1..] == a[1..] + b;
      var p := KeyValue(a[0]);
      LoadConcat(if p.Some? then Assign(r, p.value) else r, a[1..], b);
    }
  }

  lemma LoadOne(r: Loaded, line: string, p: Parsed)
    requires KeyValue(line) == Some(p)
    ensures LoadLines(r, [line]) == Assign(r, p)
  {
    assert [line][1..] == [];
  }

  // The strings of the keys given, taken from one map into another.
  function Taken(into: map<Str, string>, from: map<Str, string>, keys: seq<Str>): map<Str, string>
    decreases keys
  {
    if keys == [] then into else Taken(if keys[0] in from then into[keys[0] := from[keys[0]]] else into, from, keys[1..])
  }

  lemma {:induction false} LoadStrings(r: Loaded, strings: map<Str, string>, keys: seq<Str>)
    ensures LoadLines(r, StringLines(strings, keys)) == r.(strings := Taken(r.strings, strings, keys))
    decreases keys
  {
    if keys != [] {
      var k, rest := keys[0], StringLines(strings, keys[1..]);
      if k in strings {
        var s := strings[k];
        KeysAreKnown();
        KeyValueOf(StrKey(k), Escape(s));
        UnescapeUndoesEscape(s);
        hide Unescape, Escape, KeyValue, StrKey, StrOf;
        LoadOne(r, StringLine(k, s), Parsed(StrKey(k), 0, s));
        LoadConcat(r, [StringLine(k, s)], rest);
        LoadStrings(r.(strings := r.strings[k := s]), strings, keys[1..]);
      } else {
        assert [] + rest == rest;
        LoadStrings(r, strings, keys[1..]);
      }
    }
  }

  // The values a list of texts stands for.
  function Values(texts: seq<string>): (v: seq<Option<string>>)
    ensures |v| == |texts| && forall i :: 0 <= i < |texts| ==> v[i] == Some(Unescape(texts[i]))
  {
    if texts == [] then [] else [Some(Unescape(texts[0]))] + Values(texts[1..])
  }

  lemma LoadEntry(r: Loaded, l: List, i: nat, text: string)
    requires l in r.lists && i < |r.lists[l]|
    ensures LoadLines(r, [EntryLine(l, i, text)]) == r.(lists := r.lists[l := r.lists[l][i := Some(Unescape(text))]])
  {
    KeysAreKnown();
    IndexedKeyValueOf(ListKey(l), i, text);
    hide Unescape, KeyValue, ListKey, StrOf, CountOf, EntryOf;
    LoadOne(r, EntryLine(l, i, text), Parsed(ListKey(l), i, Unescape(text)));
  }

  lemma {:induction false} LoadEntries(r: Loaded, l: List, i: nat, texts: seq<string>)
    requires l in r.lists && |r.lists[l]| == i + |texts|
    ensures LoadLines(r, EntryLines(l, i, texts)) == r.(lists := r.lists[l := r.lists[l][..i] + Values(texts)])
    decreases texts
  {
    var list := r.lists[l];
    if texts == [] {
      assert list[..i] + [] == list;
      assert r.lists[l := list] == r.lists;
    } else {
      hide Unescape, EntryLine, LoadLines;
      LoadEntry(r, l, i, texts[0]);
      LoadConcat(r, [EntryLine(l, i, texts[0])], EntryLines(l, i + 1, texts[1..]));
      var list' := list[i := Some(Unescape(texts[0]))];
      var r' := r.(lists := r.lists[l := list']);
      LoadEntries(r', l, i + 1, texts[1..]);
      OneMoreValue(list, i, texts);
      hide Values;
      assert r'.lists[l := list'[..i + 1] + Values(texts[1..])] == r.lists[l := list[..i] + Values(texts)];
    }
  }

  lemma OneMoreValue(list: seq<Option<string>>, i: nat, texts: seq<string>)
    requires texts != [] && i < |list|
    ensures list[i := Some(Unescape(texts[0]))][..i + 1] + Values(texts[1..]) == list[..i] + Values(texts)
  {
    hide Unescape;
  }

  lemma LoadCount(r: Loaded, l: List, n: nat)
    ensures LoadLines(r, [CountKey(l) + " " + Decimal.Digits(n)]) == r.(lists := r.lists[l := Places(n)])
  {
    var d := Decimal.Digits(n);
    KeysAreKnown();
    KeyValueOf(CountKey(l), d);
    DigitsAreKeyChars(n);
    PlainPaired(d);
    UnescapeSameIff(d);
    Decimal.ReadUndoesNotation(n, "");
    assert d + "" == d;
    hide Unescape, KeyValue, CountKey, StrOf, CountOf, EntryOf;
    LoadOne(r, CountKey(l) + " " + d, Parsed(CountKey(l), 0, d));
  }

  lemma LoadList(r: Loaded, l: List, texts: seq<string>)
    ensures LoadLines(r, ListLines(l, texts)) == r.(lists := r.lists[l := Values(texts)])
  {
    hide LoadLines, CountKey, Values;
    var n := |texts|;
    LoadCount(r, l, n);
    LoadConcat(r, [CountKey(l) + " " + Decimal.Digits(n)], EntryLines(l, 0, texts));
    var r' := r.(lists := r.lists[l := Places(n)]);
    LoadEntries(r', l, 0, texts);
    assert Places(n)[..0] + Values(texts) == Values(texts);
    assert r'.lists[l := Values(texts)] == r.lists[l := Values(texts)];
  }

  lemma {:induction false} PlainPaired(s: string)
    requires SLASH !in s
    ensures Paired(s)
  {
    if s != [] { PlainPaired(s[1..]); }
  }

  // -------------------------------------------------------------------------
  // What stays on its line
  // -------------------------------------------------------------------------

  lemma KeysStayOnLine()
    ensures forall k :: OneLine(StrKey(k))
    ensures forall l :: OneLine(ListKey(l)) && OneLine(CountKey(l))
  {
    KeysAreKnown();
    forall k ensures OneLine(StrKey(k)) { assert KeyChars(StrKey(k)); }
    forall l ensures OneLine(ListKey(l)) && OneLine(CountKey(l)) { assert KeyChars(ListKey(l)) && KeyChars(CountKey(l)); }
  }

  lemma {:induction false} StringsStayOnLine(strings: map<Str, string>, keys: seq<Str>)
    ensures AllOneLine(StringLines(strings, keys))
    decreases keys
  {
    if keys != [] {
      StringsStayOnLine(strings, keys[1..]);
      if keys[0] in strings {
        KeysStayOnLine();
        EscapeIsOneLine(strings[keys[0]]);
      }
    }
  }

  lemma {:induction false} EntriesStayOnLine(l: List, i: nat, texts: seq<string>)
    requires AllOneLine(texts)
    ensures AllOneLine(EntryLines(l, i, texts))
    decreases texts
  {
    if texts != [] {
      KeysStayOnLine();
      DigitsAreKeyChars(i);
      assert OneLine(texts[0]);
      assert OneLine(EntryLine(l, i, texts[0]));
      EntriesStayOnLine(l, i + 1, texts[1..]);
    }
  }

  lemma ListStaysOnLine(l: List, texts: seq<string>)
    requires AllOneLine(texts)
    ensures AllOneLine(ListLines(l, texts))
  {
    KeysStayOnLine();
    DigitsAreKeyChars(|texts|);
    assert OneLine(CountKey(l) + " " + Decimal.Digits(|texts|));
    EntriesStayOnLine(l, 0, texts);
  }

  // -------------------------------------------------------------------------
  // The round trip
  // -------------------------------------------------------------------------

  predicate TagKeyChars(s: string) {
    '\t' !in s && '\n' !in s && SLASH !in s
  }

  predicate EnvChars(s: string) {
    '\n' !in s && SLASH !in s
  }

  // Environment strings and tag keys, which are written as they are, hold no newline; a backslash in an
  // environment string has a character behind it.
  predicate Savable(j: Job) {
    && Name in j.strings
    && (forall i :: 0 <= i < |j.envs| ==> OneLine(j.envs[i]) && Paired(j.envs[i]))
    && (forall i :: 0 <= i < |j.tags| ==> OneLine(j.tags[i].0))
  }

  // Undoing escapes part by part, behind a part in which every backslash has its character.
  lemma {:induction false} UnescapeConcat(a: string, b: string)
    requires Paired(a)
    ensures Unescape(a + b) == Unescape(a) + Unescape(b)
    decreases a
  {
    if a == [] {
      assert a + b == b;
    } else if a[0] != SLASH {
      assert (a + b)[1..] == a[1..] + b;
      UnescapeConcat(a[1..], b);
    } else {
      assert (a + b)[2..] == a[2..] + b;
      UnescapeConcat(a[2..], b);
    }
  }

  // The tab behind a key gives even a backslash at the end of the key its character.
  lemma {:induction false} TabPairs(key: string)
    ensures Paired(key + "\t")
    decreases key
  {
    var a := key + "\t";
    if key != [] {
      if key[0] != SLASH {
        assert a[1..] == key[1..] + "\t";
        TabPairs(key[1..]);
      } else if |key| > 1 {
        assert a[2..] == key[2..] + "\t";
        TabPairs(key[2..]);
      } else {
        assert a[2..] == [];
      }
    }
  }

  // What a tag reads back as.
  lemma TagRead(t: (string, string))
    ensures Unescape(TagText(t)) == Unescape(t.0 + "\t") + t.1
  {
    TabPairs(t.0);
    UnescapeConcat(t.0 + "\t", Escape(t.1));
    UnescapeUndoesEscape(t.1);
    hide Unescape, Escape, Paired;
  }

  lemma TagSplitsIff(u: string, key: string, value: string)
    ensures TagOf(u) == (key, Some(value)) <==> u == key + "\t" + value && '\t' !in key
  {
    var k := IndexOf(u, '\t');
    if k < |u| { assert u == u[..k] + "\t" + u[k + 1..]; }
    if u == key + "\t" + value && '\t' !in key {
      IndexOfFirst(key, '\t', value);
      assert u == key + ['\t'] + value && u[..|key|] == key && u[|key| + 1..] == value;
    }
  }

  // A tag is read back as it was if and only if its key holds no tab and no backslash.
  lemma TagBackIff(t: (string, string))
    ensures TagOf(Unescape(TagText(t))) == (t.0, Some(t.1)) <==> '\t' !in t.0 && SLASH !in t.0
  {
    var a := t.0 + "\t";
    TagRead(t);
    TagSplitsIff(Unescape(TagText(t)), t.0, t.1);
    TabPairs(t.0);
    UnescapeSameIff(a);
    hide Unescape, Paired, TagOf;
    SameFront(Unescape(a), a, t.1);
    assert SLASH in a <==> SLASH in t.0;
  }

  lemma SameFront(a: string, b: string, c: string)
    ensures a + c == b + c <==> a == b
  {
    if a + c == b + c {
      assert |a| == |b|;
      assert a == (a + c)[..|a|] && b == (b + c)[..|b|];
    }
  }

  lemma TagOnLine(t: (string, string))
    ensures OneLine(TagText(t)) <==> OneLine(t.0)
  {
    EscapeIsOneLine(t.1);
  }

  lemma JobStaysOnLine(j: Job)
    requires Savable(j)
    ensures AllOneLine(JobLines(j))
  {
    StringsStayOnLine(j.strings, [Name]);
    StringsStayOnLine(j.strings, OPTIONAL);
    forall i | 0 <= i < |j.argv| ensures OneLine(ArgTexts(j.argv)[i]) { EscapeIsOneLine(j.argv[i]); }
    ListStaysOnLine(Args, ArgTexts(j.argv));
    ListStaysOnLine(Envs, j.envs);
    forall i | 0 <= i < |j.tags| ensures OneLine(TagTexts(j.tags)[i]) { TagOnLine(j.tags[i]); }
    ListStaysOnLine(Tags, TagTexts(j.tags));
    hide StringLines, ListLines;
  }

  // The lists of a loaded job.
  function LoadedLists(j: Job): map<List, seq<Option<string>>> {
    var a := map[Args := Values(ArgTexts(j.argv))];
    var b := if j.envs != [] then a[Envs := Values(j.envs)] else a;
    if j.tags != [] then b[Tags := Values(TagTexts(j.tags))] else b
  }

  lemma LoadSections(j: Job)
    ensures LoadLines(EMPTY, JobLines(j)) == Loaded(Taken(Taken(map[], j.strings, [Name]), j.strings, OPTIONAL), LoadedLists(j))
  {
    hide LoadLines, StringLines, ListLines, Values, Taken;
    var s1, s2, s3 := StringLines(j.strings, [Name]), ListLines(Args, ArgTexts(j.argv)), StringLines(j.strings, OPTIONAL);
    var s4 := if j.envs != [] then ListLines(Envs, j.envs) else [];
    var s5 := if j.tags != [] then ListLines(Tags, TagTexts(j.tags)) else [];
    LoadConcat(EMPTY, s1 + s2 + s3 + s4, s5);
    LoadConcat(EMPTY, s1 + s2 + s3, s4);
    LoadConcat(EMPTY, s1 + s2, s3);
    LoadConcat(EMPTY, s1, s2);
    LoadStrings(EMPTY, j.strings, [Name]);
    var r1 := LoadLines(EMPTY, s1);
    LoadList(r1, Args, ArgTexts(j.argv));
    var r2 := LoadLines(r1, s2);
    LoadStrings(r2, j.strings, OPTIONAL);
    var r3 := LoadLines(r2, s3);
    if j.envs != [] { LoadList(r3, Envs, j.envs); } else { LoadNothing(r3); }
    var r4 := LoadLines(r3, s4);
    if j.tags != [] { LoadList(r4, Tags, TagTexts(j.tags)); } else { LoadNothing(r4); }
  }

  lemma LoadNothing(r: Loaded)
    ensures LoadLines(r, []) == r
  {
  }

  lemma {:induction false} TakenHas(into: map<Str, string>, from: map<Str, string>, keys: seq<Str>, k: Str)
    ensures var r := Taken(into, from, keys);
            && (k in r <==> k in into || (k in keys && k in from))
            && (k in r ==> r[k] == if k in keys && k in from then from[k] else into[k])
    decreases keys
  {
    if keys != [] { TakenHas(if keys[0] in from then into[keys[0] := from[keys[0]]] else into, from, keys[1..], k); }
  }

  lemma TakenAll(strings: map<Str, string>)
    ensures Taken(Taken(map[], strings, [Name]), strings, OPTIONAL) == strings
  {
    var m := Taken(map[], strings, [Name]);
    var r := Taken(m, strings, OPTIONAL);
    forall k ensures (k in r <==> k in strings) && (k in r ==> r[k] == strings[k]) {
      TakenHas(map[], strings, [Name], k);
      TakenHas(m, strings, OPTIONAL, k);
      assert k == Name || k == OPTIONAL[0] || k == OPTIONAL[1] || k == OPTIONAL[2] || k == OPTIONAL[3] || k == OPTIONAL[4];
    }
  }

  lemma SavedIsLoaded(j: Job)
    requires Savable(j)
    ensures LoadJob(SaveJob(j)) == Loaded(j.strings, LoadedLists(j))
  {
    JobStaysOnLine(j);
    SplitOfJoined(JobLines(j));
    LoadSections(j);
    TakenAll(j.strings);
    hide LoadLines, JobLines, Split, Joined, Taken, LoadedLists;
  }

  // Save then load: every string and every argument comes back, an environment string if and only if it
  // holds no backslash, and a tag if and only if its key holds no tab and no backslash.
  lemma SaveThenLoadIff(j: Job)
    requires Savable(j)
    ensures var r := LoadJob(SaveJob(j));
            && r.strings == j.strings
            && Args in r.lists && |r.lists[Args]| == |j.argv| && (forall i :: 0 <= i < |j.argv| ==> r.lists[Args][i] == Some(j.argv[i]))
            && (if j.envs == [] then Envs !in r.lists
                else Envs in r.lists && |r.lists[Envs]| == |j.envs| && forall i :: 0 <= i < |j.envs| ==>
                  (r.lists[Envs][i] == Some(j.envs[i]) <==> EnvChars(j.envs[i])))
            && (if j.tags == [] then Tags !in r.lists
                else Tags in r.lists && |r.lists[Tags]| == |j.tags| && forall i :: 0 <= i < |j.tags| ==>
                  && r.lists[Tags][i].Some?
                  && (TagOf(r.lists[Tags][i].value) == (j.tags[i].0, Some(j.tags[i].1)) <==> TagKeyChars(j.tags[i].0)))
  {
    SavedIsLoaded(j);
    hide LoadJob, SaveJob, Unescape, Escape;
    forall i | 0 <= i < |j.argv| ensures Unescape(ArgTexts(j.argv)[i]) == j.argv[i] { UnescapeUndoesEscape(j.argv[i]); }
    forall i | 0 <= i < |j.envs| ensures Unescape(j.envs[i]) == j.envs[i] <==> EnvChars(j.envs[i]) { UnescapeSameIff(j.envs[i]); }
    forall i | 0 <= i < |j.tags|
      ensures TagOf(Unescape(TagTexts(j.tags)[i])) == (j.tags[i].0, Some(j.tags[i].1)) <==> TagKeyChars(j.tags[i].0)
    {
      TagBackIff(j.tags[i]);
    }
  }

  // An environment string is written as it is. Its line reads back as it if and only if it holds no
  // newline and no backslash.
  lemma EnvSurvivesIff(i: nat, e: string)
    requires Paired(e)
    ensures var lines := Split(Joined([EntryLine(Envs, i, e)]));
            |lines| > 0 && (KeyValue(lines[0]) == Some(Parsed("ENV", i, e)) <==> EnvChars(e))
  {
    var k := IndexOf(e, '\n');
    var kept := e[..k];
    var head := "ENV" + "[" + Decimal.Digits(i) + "]" + " ";
    EntryHead(Envs, i);
    IndexedKeyValueOf("ENV", i, kept);
    FirstLine(head, e);
    hide KeyValue, Split, Joined, Decimal.Digits, OneLine, KeyChars;
    if '\n' in e {
      assert k < |e|;
    } else {
      IndexAbsent(e, '\n');
      assert kept == e;
      UnescapeSameIff(e);
    }
  }

  lemma EntryHead(l: List, i: nat)
    ensures KeyChars(ListKey(l)) && OneLine(ListKey(l) + "[" + Decimal.Digits(i) + "]" + " ")
  {
    KeysAreKnown();
    DigitsAreKeyChars(i);
  }

  // The key of a tag is written as it is. The tag's line reads back as the tag if and only if its key holds
  // no newline, no tab and no backslash.
  lemma TagSurvivesIff(i: nat, t: (string, string))
    ensures var lines := Split(Joined([EntryLine(Tags, i, TagText(t))]));
            && |lines| > 0 && KeyValue(lines[0]).Some?
            && KeyValue(lines[0]).value.key == "TAG" && KeyValue(lines[0]).value.index == i
            && (TagOf(KeyValue(lines[0]).value.value) == (t.0, Some(t.1)) <==> TagKeyChars(t.0))
  {
    var text := TagText(t);
    var k := IndexOf(text, '\n');
    var kept := text[..k];
    EntryHead(Tags, i);
    IndexedKeyValueOf("TAG", i, kept);
    FirstLine("TAG" + "[" + Decimal.Digits(i) + "]" + " ", text);
    TagOnLine(t);
    hide KeyValue, Split, Joined, Decimal.Digits, KeyChars;
    if OneLine(t.0) {
      IndexAbsent(text, '\n');
      assert kept == text;
      TagBackIff(t);
    } else {
      CutTag(t, k);
    }
  }

  // A key with a newline is cut short.
  lemma CutTag(t: (string, string), k: nat)
    requires !OneLine(t.0) && k == IndexOf(TagText(t), '\n')
    ensures k < |t.0| && TagOf(Unescape(TagText(t)[..k])) != (t.0, Some(t.1))
  {
    var n :| 0 <= n < |t.0| && t.0[n] == '\n';
    assert TagText(t)[n] == '\n';
    var u := Unescape(TagText(t)[..k]);
    assert |u| <= k < |t.0|;
    TagSplitsIff(u, t.0, t.1);
  }

  // The first line of a text ends at its first newline.
  lemma FirstLine(head: string, e: string)
    requires OneLine(head)
    ensures var lines := Split(Joined([head + e])); |lines| > 0 && lines[0] == head + e[..IndexOf(e, '\n')]
  {
    var f := Joined([head + e]);
    assert Joined([head + e][1..]) == "";
    assert f == head + e + "\n";
    var k := IndexOf(e, '\n');
    var line := head + e[..k];
    var rest := if k == |e| then "" else e[k + 1..] + "\n";
    assert f == line + ['\n'] + rest;
    IndexOfFirst(line, '\n', rest);
    assert f[..|line|] == line;
  }
}
