/**
 Keys of maps. They are printed as they are, but read like any string, so a key with a quote or a
 backslash does not come back.
 */
module JsonKeys {
  import opened Options
  import opened JsonStrings
  import opened JsonObjects
  import opened JsonMessages
  import opened JsonRoundTrip

  // How the reader gets through a text: it meets the closing quote inside, it reads all of it, or it is
  // left with a backslash at its end.
  datatype Reading = Closed(value: string, rest: string) | Through(value: string) | Dangling(value: string)

  function Before(c: string, r: Reading): Reading {
    match r
    case Closed(v, rest) => Closed(c + v, rest)
    case Through(v) => Through(c + v)
    case Dangling(v) => Dangling(c + v)
  }

  function Read(a: string): (r: Reading)
    ensures r.Closed? ==> |r.value| + |r.rest| < |a|
    ensures r.Through? ==> |r.value| <= |a| && (SLASH in a ==> |r.value| < |a|) && (SLASH !in a ==> r.value == a && QUOTE !in a)
    ensures r.Dangling? ==> |r.value| < |a| && a[|a| - 1] == SLASH
  {
    if a == [] then Through([])
    else if a[0] == QUOTE then Closed([], a[1..])
    else if a[0] == SLASH then
      if |a| == 1 then Dangling([]) else Before(Unescaped(a[1]), Read(a[2..]))
    else Before([a[0]], Read(a[1..]))
  }

  lemma JoinedTwice(a: string, b: string, r: Option<(string, string)>)
    ensures Joined(a, Joined(b, r)) == Joined(a + b, r)
  {
    if r.Some? { assert a + (b + r.value.0) == a + b + r.value.0; }
  }

  // How reading goes on behind the text.
  function Continued(r: Reading, b: string): Option<(string, string)> {
    match r
    case Closed(v, rest) => Some((v, rest + b))
    case Through(v) => Joined(v, Unquote(b))
    case Dangling(v) => Joined(v, Unquote([SLASH] + b))
  }

  lemma {:induction false} UnquoteReads(a: string, b: string)
    ensures Unquote(a + b) == Continued(Read(a), b)
    decreases |a|
  {
    if a == [] {
      assert a + b == b;
      JoinedNothing(Unquote(b));
    } else if a[0] == QUOTE {
      assert (a + b)[0] == QUOTE && (a + b)[1..] == a[1..] + b;
    } else if a[0] == SLASH {
      if |a| == 1 {
        assert a == [SLASH];
        JoinedNothing(Unquote([SLASH] + b));
      } else {
        UnquoteReads(a[2..], b);
        SlashFirst(a, b);
        UnquoteSlash(a[1], a[2..] + b);
        hide Unquote, Unescaped;
        MoveOn(Unescaped(a[1]), Read(a[2..]), b);
      }
    } else {
      UnquoteReads(a[1..], b);
      assert a + b == [a[0]] + (a[1..] + b);
      UnquotePlain(a[0], a[1..] + b);
      hide Unquote;
      MoveOn([a[0]], Read(a[1..]), b);
    }
  }

  lemma SlashFirst(a: string, b: string)
    requires |a| > 1 && a[0] == SLASH
    ensures a + b == [SLASH, a[1]] + (a[2..] + b)
  {
  }

  lemma JoinedNothing(r: Option<(string, string)>)
    ensures Joined([], r) == r
  {
    if r.Some? { assert [] + r.value.0 == r.value.0; }
  }

  lemma MoveOn(c: string, r: Reading, b: string)
    ensures Continued(Before(c, r), b) == Joined(c, Continued(r, b))
  {
    hide Unquote;
    match r
    case Closed(_, _) =>
    case Through(v) => JoinedTwice(c, v, Unquote(b));
    case Dangling(v) => JoinedTwice(c, v, Unquote([SLASH] + b));
  }

  // What is read behind a backslash that has swallowed the closing quote: the quote and the colon, up to
  // the opening quote of the value.
  lemma SwallowedQuote(rest: string)
    ensures Unquote([SLASH] + ([QUOTE] + (":" + ([QUOTE] + rest)))) == Some(([QUOTE, ':'], rest))
  {
    var tail := ":" + ([QUOTE] + rest);
    assert [SLASH] + ([QUOTE] + tail) == [SLASH, QUOTE] + tail;
    UnquoteSlash(QUOTE, tail);
    UnquotePlain(':', [QUOTE] + rest);
    assert ([QUOTE] + rest)[0] == QUOTE && ([QUOTE] + rest)[1..] == rest;
    assert Unquote([QUOTE] + rest) == Some(([], rest));
    hide Unquote;
    assert [':'] + [] == ":" && [QUOTE] + ":" == [QUOTE, ':'];
  }

  // A key in front of a string value reads back as it was if and only if it holds no quote and no
  // backslash.
  lemma KeyReadsIff(key: string, rest: string)
    ensures var r := Unquote(key + ([QUOTE] + (":" + ([QUOTE] + rest))));
            r.Some? && r.value.0 == key <==> NameChars(key)
  {
    var tail := [QUOTE] + (":" + ([QUOTE] + rest));
    UnquoteReads(key, tail);
    match Read(key)
    case Closed(_, _) => ClosedHasQuote(key);
    case Through(v) =>
      assert tail[0] == QUOTE && tail[1..] == ":" + ([QUOTE] + rest);
      assert Unquote(tail) == Some(([], tail[1..]));
      hide Unquote;
      assert v + [] == v;
    case Dangling(v) =>
      SwallowedQuote(rest);
      hide Unquote;
      var u := v + [QUOTE, ':'];
      assert u[|u| - 1] == ':';
  }

  lemma ClosedHasQuote(a: string)
    requires Read(a).Closed?
    ensures !NameChars(a)
  {
    if NameChars(a) { ReadPlain(a); }
  }

  lemma {:induction false} ReadPlain(a: string)
    requires NameChars(a)
    ensures Read(a).Through?
  {
    if a != [] { ReadPlain(a[1..]); }
  }

  // The pairs of a map with one pair come back if and only if its key holds no quote and no backslash.
  lemma PairSurvivesIff(key: string, value: string)
    ensures GetPairs(PrintPair((key, Some(value)))) == Some([(key, Some(value))]) <==> NameChars(key)
  {
    if NameChars(key) {
      KeptPair(key, value);
    } else {
      var rest := Escape(value) + [QUOTE];
      assert PrintString(value) == [QUOTE] + rest;
      PairText(key, rest);
      KeyReadsIff(key, rest);
      LostPair(key, value, key + ([QUOTE] + (":" + ([QUOTE] + rest))));
    }
  }

  lemma PairText(key: string, rest: string)
    ensures [QUOTE] + key + [QUOTE] + ":" + ([QUOTE] + rest) == [QUOTE] + (key + ([QUOTE] + (":" + ([QUOTE] + rest))))
  {
  }

  lemma LostPair(key: string, value: string, t: string)
    requires var r := Unquote(t); r.None? || r.value.0 != key
    ensures GetPairs([QUOTE] + t) != Some([(key, Some(value))])
  {
    var s := [QUOTE] + t;
    assert s[0] == QUOTE && s[1..] == t;
    SkipNothing(s, BEFORE_NAME);
    SkipNothing(s, BLANKS);
    hide Unquote, SkipChars;
    assert GetName(s).None? || GetName(s).value.0 != key;
    hide GetString, GetName;
    if GetPairs(s).Some? && GetName(s).Some? { assert GetPairs(s).value != [] && GetPairs(s).value[0].0 == GetName(s).value.0; }
  }

  lemma KeptPair(key: string, value: string)
    requires NameChars(key)
    ensures GetPairs(PrintPair((key, Some(value)))) == Some([(key, Some(value))])
  {
    var t, rest := PrintPair((key, Some(value))), PrintString(value);
    assert t == "" + PrintName(key) + ":" + rest;
    StringStart(value, "");
    assert rest + "" == rest;
    GetNameOf("", key, rest);
    GetStringOf(value, "");
    NoNameHere("");
    hide GetName, GetString, PrintName, PrintString;
    assert GetPairs("") == Some([]);
    assert [(key, Some(value))] + [] == [(key, Some(value))];
  }
}
