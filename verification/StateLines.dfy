/**
 A job's state file, line by line: what is written for its strings and lists, and what is read back.
 */
module StateLines {
  import opened Options
  import opened StateFile
  import Decimal

  // The strings and the lists of strings that are saved.
  datatype Str = Name | Shell | Pre | Post | Out | Err
  datatype List = Args | Envs | Tags

  function StrKey(k: Str): string {
    match k
    case Name => "JOBNAME"
    case Shell => "SHELL"
    case Pre => "PRECMD"
    case Post => "POSTCMD"
    case Out => "STDOUT"
    case Err => "STDERR"
  }

  function ListKey(l: List): string {
    match l
    case Args => "ARGV"
    case Envs => "ENV"
    case Tags => "TAG"
  }

  function CountKey(l: List): string {
    match l
    case Args => "ARGC"
    case Envs => "ENV_COUNT"
    case Tags => "TAG_COUNT"
  }

  // -------------------------------------------------------------------------
  // Writing
  // -------------------------------------------------------------------------

  datatype Job = Job(strings: map<Str, string>, argv: seq<string>, envs: seq<string>, tags: seq<(string, string)>)

  function StringLine(k: Str, s: string): string {
    StrKey(k) + " " + Escape(s)
  }

  function StringLines(strings: map<Str, string>, keys: seq<Str>): seq<string> {
    if keys == [] then []
    else (if keys[0] in strings then [StringLine(keys[0], strings[keys[0]])] else []) + StringLines(strings, keys[1..])
  }

  function EntryLine(l: List, i: nat, text: string): string {
    ListKey(l) + "[" + Decimal.Digits(i) + "]" + " " + text
  }

  function EntryLines(l: List, i: nat, texts: seq<string>): seq<string>
    decreases texts
  {
    if texts == [] then [] else [EntryLine(l, i, texts[0])] + EntryLines(l, i + 1, texts[1..])
  }

  function ListLines(l: List, texts: seq<string>): seq<string> {
    [CountKey(l) + " " + Decimal.Digits(|texts|)] + EntryLines(l, 0, texts)
  }

  // Arguments and tag values are escaped, environment strings and tag keys are not.
  function ArgTexts(argv: seq<string>): (t: seq<string>)
    ensures |t| == |argv| && forall i :: 0 <= i < |argv| ==> t[i] == Escape(argv[i])
  {
    seq(|argv|, i requires 0 <= i < |argv| => Escape(argv[i]))
  }

  function TagText(t: (string, string)): string {
    t.0 + "\t" + Escape(t.1)
  }

  function TagTexts(tags: seq<(string, string)>): (t: seq<string>)
    ensures |t| == |tags| && forall i :: 0 <= i < |tags| ==> t[i] == TagText(tags[i])
  {
    seq(|tags|, i requires 0 <= i < |tags| => TagText(tags[i]))
  }

  const OPTIONAL := [Shell, Pre, Post, Out, Err]

  function JobLines(j: Job): seq<string> {
    StringLines(j.strings, [Name]) + ListLines(Args, ArgTexts(j.argv)) + StringLines(j.strings, OPTIONAL)
    + (if j.envs != [] then ListLines(Envs, j.envs) else [])
    + (if j.tags != [] then ListLines(Tags, TagTexts(j.tags)) else [])
  }

  function Joined(lines: seq<string>): string {
    if lines == [] then "" else lines[0] + "\n" + Joined(lines[1..])
  }

  function SaveJob(j: Job): string {
    Joined(JobLines(j))
  }

  // -------------------------------------------------------------------------
  // Reading
  // -------------------------------------------------------------------------

  function IndexOf(s: string, c: char): (i: nat)
    ensures i <= |s| && (i < |s| ==> s[i] == c) && forall k :: 0 <= k < i ==> s[k] != c
  {
    if s == [] || s[0] == c then 0 else 1 + IndexOf(s[1..], c)
  }

  function BlankAt(s: string): (i: nat)
    ensures i <= |s|
  {
    if s == [] || s[0] == ' ' || s[0] == '\t' then 0 else 1 + BlankAt(s[1..])
  }

  function SkipBlanks(s: string): (r: string)
    ensures |r| <= |s|
  {
    if s != [] && (s[0] == ' ' || s[0] == '\t') then SkipBlanks(s[1..]) else s
  }

  // The lines of a file, without their newlines.
  function Split(f: string): seq<string> {
    if f == [] then [] else
    var k := IndexOf(f, '\n');
    [f[..k]] + if k == |f| then [] else Split(f[k + 1..])
  }

  datatype Parsed = Parsed(key: string, index: int, value: string)

  // loadKeyValue: a key, an index in brackets behind it, and everything behind one blank. Comments, and
  // lines without a blank behind the key, give nothing.
  function KeyValue(line: string): Option<Parsed> {
    var p := SkipBlanks(line);
    if p == [] || p[0] == '#' || BlankAt(p) == |p| then None
    else
      var key := p[..BlankAt(p)];
      var b := IndexOf(key, '[');
      Some(Parsed(key[..b], if b < |key| then Decimal.Read(key[b + 1..]).1 else 0, Unescape(p[BlankAt(p) + 1..])))
  }

  // What has been loaded so far; a list has a place for each of its entries once its count is known.
  datatype Loaded = Loaded(strings: map<Str, string>, lists: map<List, seq<Option<string>>>)

  function Places(n: int): (s: seq<Option<string>>)
    ensures |s| == (if n < 0 then 0 else n) && forall i :: 0 <= i < |s| ==> s[i] == None
  {
    if n <= 0 then [] else Places(n - 1) + [None]
  }

  function StrOf(key: string): Option<Str> {
    if key == "JOBNAME" then Some(Name)
    else if key == "SHELL" then Some(Shell)
    else if key == "PRECMD" then Some(Pre)
    else if key == "POSTCMD" then Some(Post)
    else if key == "STDOUT" then Some(Out)
    else if key == "STDERR" then Some(Err)
    else None
  }

  function CountOf(key: string): Option<List> {
    if key == "ARGC" then Some(Args) else if key == "ENV_COUNT" then Some(Envs) else if key == "TAG_COUNT" then Some(Tags) else None
  }

  function EntryOf(key: string): Option<List> {
    if key == "ARGV" then Some(Args) else if key == "ENV" then Some(Envs) else if key == "TAG" then Some(Tags) else None
  }

  // One line of stateLoadJob. An entry outside the places of its list is not stored.
  function Assign(r: Loaded, p: Parsed): Loaded {
    if StrOf(p.key).Some? then r.(strings := r.strings[StrOf(p.key).value := p.value])
    else if CountOf(p.key).Some? then r.(lists := r.lists[CountOf(p.key).value := Places(Decimal.Read(p.value).1)])
    else if EntryOf(p.key).Some? then
      var l := EntryOf(p.key).value;
      if l in r.lists && 0 <= p.index < |r.lists[l]| then r.(lists := r.lists[l := r.lists[l][p.index := Some(p.value)]]) else r
    else r
  }

  function LoadLines(r: Loaded, lines: seq<string>): Loaded
    decreases lines
  {
    if lines == [] then r
    else
      var p := KeyValue(lines[0]);
      LoadLines(if p.Some? then Assign(r, p.value) else r, lines[1..])
  }

  const EMPTY := Loaded(map[], map[])

  function LoadJob(f: string): Loaded {
    LoadLines(EMPTY, Split(f))
  }

  // A loaded tag is split at its first tab.
  function TagOf(s: string): (string, Option<string>) {
    var k := IndexOf(s, '\t');
    if k < |s| then (s[..k], Some(s[k + 1..])) else (s, None)
  }

  // stateLoadJob: line by line to the end of the file.
  method ReadJobFile(f: string) returns (r: Loaded)
    ensures r == LoadJob(f)
  {
    r := EMPTY;
    var pos := 0;
    ghost var rest := f;
    assert f[0..] == f;
    hide KeyValue, Assign, IndexOf, Split, LoadLines;
    while pos < |f|
      invariant 0 <= pos <= |f| && rest == f[pos..] && LoadLines(r, Split(rest)) == LoadJob(f)
    {
      var line := GetLine(f, pos);
      NextLine(r, rest);
      var p := KeyValue(line);
      if p.Some? {
        r := Assign(r, p.value);
      }
      pos := if pos + |line| < |f| then pos + |line| + 1 else |f|;
      rest := Behind(rest);
    }
    LastLine(r);
  }

  function FirstOf(t: string): string {
    t[..IndexOf(t, '\n')]
  }

  function Behind(t: string): string {
    if IndexOf(t, '\n') < |t| then t[IndexOf(t, '\n') + 1..] else []
  }

  lemma LineParts(f: string, pos: nat, k: nat)
    requires pos < |f| && k == IndexOf(f[pos..], '\n') && pos + k <= |f|
    ensures f[pos..][..k] == FirstOf(f[pos..])
    ensures Behind(f[pos..]) == f[if pos + k < |f| then pos + k + 1 else |f|..]
  {
    if pos + k < |f| { assert f[pos..][k + 1..] == f[pos + k + 1..]; }
  }

  // One line without its newline.
  method GetLine(f: string, pos: nat) returns (line: string)
    requires pos < |f|
    ensures line == FirstOf(f[pos..]) && Behind(f[pos..]) == f[if pos + |line| < |f| then pos + |line| + 1 else |f|..]
  {
    var k := 0;
    ghost var rest := f[pos..];
    while pos + k < |f| && f[pos + k] != '\n'
      invariant pos + k <= |f| && k <= IndexOf(rest, '\n')
    {
      assert rest[k] == f[pos + k];
      k := k + 1;
    }
    assert pos + k < |f| ==> rest[k] == f[pos + k];
    LineParts(f, pos, k);
    hide FirstOf, Behind;
    line := f[pos..][..k];
  }

  lemma NextLine(r: Loaded, t: string)
    requires t != []
    ensures var p := KeyValue(FirstOf(t));
            LoadLines(r, Split(t)) == LoadLines(if p.Some? then Assign(r, p.value) else r, Split(Behind(t)))
  {
    SplitFirst(t);
    hide KeyValue, Assign, Split, IndexOf;
    LoadFirst(r, FirstOf(t), Split(Behind(t)));
  }

  lemma SplitFirst(t: string)
    requires t != []
    ensures Split(t) == [FirstOf(t)] + Split(Behind(t))
  {
    hide IndexOf;
  }

  lemma LoadFirst(r: Loaded, line: string, rest: seq<string>)
    ensures LoadLines(r, [line] + rest) == LoadLines(if KeyValue(line).Some? then Assign(r, KeyValue(line).value) else r, rest)
  {
    hide KeyValue, Assign;
    assert ([line] + rest)[0] == line && ([line] + rest)[1..] == rest;
  }

  lemma LastLine(r: Loaded)
    ensures LoadLines(r, Split([])) == r
  {
  }
}
