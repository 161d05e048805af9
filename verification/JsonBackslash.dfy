/**
 Strings that end in a backslash. The search for the end of an object takes their closing quote for an
 escaped one, so a request whose one field is such a string cannot be loaded.
 */
module JsonBackslash {
  import opened Options
  import opened JsonStrings
  import opened JsonObjects
  import opened JsonMessages
  import opened JsonRoundTrip
  import Decimal

  predicate Outside(s: Scan) {
    s.depth >= 0 && !s.quoted && s.prev != SLASH
  }

  // Complete tokens and opening braces do not close anything.
  lemma PassNeutral(s: Scan, t: string, rest: string)
    requires Outside(s) && Neutral(t)
    ensures Outside(After(s, t)) && (Close(After(s, t), rest).None? ==> Close(s, t + rest).None?)
  {
    assert NeutralFrom(s, t);
    CloseBehind(s, t, rest);
  }

  lemma PassBrace(s: Scan, rest: string)
    requires Outside(s)
    ensures Outside(Next(s, '{')) && (Close(Next(s, '{'), rest).None? ==> Close(s, "{" + rest).None?)
  {
    assert ("{" + rest)[0] == '{' && ("{" + rest)[1..] == rest;
  }

  // Inside quotes that are never closed, no brace counts.
  lemma {:induction false} NeverClosed(s: Scan, t: string)
    requires s.quoted && s.depth >= 0 && Shielded(t, s.prev)
    ensures Close(s, t).None?
    decreases t
  {
    if t != [] { NeverClosed(Next(s, t[0]), t[1..]); }
  }

  lemma {:induction false} ShieldedConcat(a: string, b: string, prev: char)
    requires Shielded(a, prev) && Shielded(b, if a == [] then prev else a[|a| - 1])
    ensures Shielded(a + b, prev)
  {
    if a == [] {
      assert a + b == b;
    } else {
      assert (a + b)[1..] == a[1..] + b;
      ShieldedConcat(a[1..], b, a[0]);
    }
  }

  lemma {:induction false} NoQuotesShielded(t: string, prev: char)
    requires forall i :: 0 <= i < |t| ==> t[i] != QUOTE
    ensures Shielded(t, prev)
  {
    if t != [] { NoQuotesShielded(t[1..], t[0]); }
  }

  // A string that ends in a backslash leaves its quotes open.
  lemma OpenString(s: Scan, value: string, rest: string)
    requires Outside(s) && EndsInSlash(value) && forall i :: 0 <= i < |rest| ==> rest[i] != QUOTE
    ensures Close(s, PrintString(value) + rest).None?
  {
    var e := Escape(value);
    EscapeShielded(value, QUOTE);
    EscapeEnd(value);
    hide Escape;
    OpenQuotes(s, e, rest);
    QuoteText(e, rest);
    hide Close;
  }

  lemma QuoteText(e: string, rest: string)
    ensures [QUOTE] + e + [QUOTE] + rest == [QUOTE] + (e + ([QUOTE] + rest))
  {
  }

  lemma OpenQuotes(s: Scan, e: string, rest: string)
    requires Outside(s) && Shielded(e, QUOTE) && EndsInSlash(e) && forall i :: 0 <= i < |rest| ==> rest[i] != QUOTE
    ensures Close(s, [QUOTE] + (e + ([QUOTE] + rest))).None?
  {
    var inside := e + ([QUOTE] + rest);
    NoQuotesShielded(rest, QUOTE);
    QuoteShielded(rest);
    ShieldedConcat(e, [QUOTE] + rest, QUOTE);
    hide Shielded;
    NeverClosed(Next(s, QUOTE), inside);
    var t := [QUOTE] + inside;
    assert t[0] == QUOTE && t[1..] == inside;
  }

  lemma QuoteShielded(rest: string)
    requires Shielded(rest, QUOTE)
    ensures Shielded([QUOTE] + rest, SLASH)
  {
    assert ([QUOTE] + rest)[1..] == rest;
  }

  // The text of such a request in front of the string: complete tokens and two braces.
  lemma NotLoaded(table: seq<FieldDef>, command: string, version: int, n: nat, value: string)
    requires TableOk(table) && CleanCommand(command) && n < |table| && EndsInSlash(value)
    ensures LoadMessage(table, PrintRequest(table, command, version, [Field(n, Str(Some(value)))])) == Bad
  {
    var a := PrintName(command) + ":";
    var b := PrintName("VERSION") + (":" + Decimal.Notation(version) + ",") + (PrintName("FIELDS") + ":");
    var c := PrintName(table[n].name) + ":";
    var q := PrintString(value);
    PartsNeutral(command, version, table[n].name);
    hide Neutral, PrintName, PrintString, Close;
    RequestText(table, command, version, n, value, a, b, c, q);
    NoEnd(a, b, c, value);
    var t := PrintRequest(table, command, version, [Field(n, Str(Some(value)))]);
    hide PrintRequest;
    var inside := a + ("{" + (b + ("{" + (c + (q + "}}}\n")))));
    assert t[0] == '{' && t[1..] == inside;
    SkipNothing(t, BLANKS);
    hide SkipChars;
  }

  lemma NoEnd(a: string, b: string, c: string, value: string)
    requires Neutral(a) && Neutral(b) && Neutral(c) && EndsInSlash(value)
    ensures Close(Scan(0, false, '{'), a + ("{" + (b + ("{" + (c + (PrintString(value) + "}}}\n")))))).None?
  {
    hide Neutral, PrintString, Close, Next, After;
    var s0 := Scan(0, false, '{');
    var last := PrintString(value) + "}}}\n";
    PassNeutral(s0, a, "{" + (b + ("{" + (c + last))));
    var s1 := After(s0, a);
    PassBrace(s1, b + ("{" + (c + last)));
    var s2 := Next(s1, '{');
    PassNeutral(s2, b, "{" + (c + last));
    var s3 := After(s2, b);
    PassBrace(s3, c + last);
    var s4 := Next(s3, '{');
    PassNeutral(s4, c, last);
    OpenString(After(s4, c), value, "}}}\n");
  }

  lemma RequestText(table: seq<FieldDef>, command: string, version: int, n: nat, value: string, a: string, b: string, c: string, q: string)
    requires n < |table| && a == PrintName(command) + ":"
    requires b == PrintName("VERSION") + (":" + Decimal.Notation(version) + ",") + (PrintName("FIELDS") + ":")
    requires c == PrintName(table[n].name) + ":" && q == PrintString(value)
    ensures PrintRequest(table, command, version, [Field(n, Str(Some(value)))]) == "{" + (a + ("{" + (b + ("{" + (c + (q + "}}}\n"))))))
  {
    hide PrintName, PrintString;
    var f := Field(n, Str(Some(value)));
    var fields := PrintFields(table, [f]);
    assert fields == c + q;
    assert PrintBody(version, fields) == b + ("{" + fields + "}");
    Regroup(a, b, c, q);
    hide PrintBody, PrintFields;
    assert PrintName(command) + ":" + "{" + PrintBody(version, fields) + "}" == a + "{" + (b + ("{" + (c + q) + "}")) + "}";
  }

  lemma Regroup(a: string, b: string, c: string, q: string)
    ensures "{" + (a + "{" + (b + ("{" + (c + q) + "}")) + "}") + "}" + "\n" == "{" + (a + ("{" + (b + ("{" + (c + (q + "}}}\n"))))))
  {
    var x := "{" + (c + q) + "}";
    assert x == "{" + (c + (q + "}"));
    assert a + "{" + (b + x) + "}" == a + ("{" + (b + (x + "}")));
    assert x + "}" == "{" + (c + (q + "}}"));
    assert "{" + (a + ("{" + (b + (x + "}")))) + "}" + "\n" == "{" + (a + ("{" + (b + (x + "}" + "}\n"))));
    assert x + "}" + "}\n" == "{" + (c + (q + "}}}\n"));
  }

  lemma PartsNeutral(command: string, version: int, name: string)
    requires CleanName(command) && CleanName(name)
    ensures Neutral(PrintName(command) + ":") && Neutral(PrintName(name) + ":")
    ensures Neutral(PrintName("VERSION") + (":" + Decimal.Notation(version) + ",") + (PrintName("FIELDS") + ":"))
  {
    VersionName();
    hide Neutral, PrintName;
    PlainIsNeutral(":");
    PrintNameNeutral(command);
    PrintNameNeutral(name);
    PrintNameNeutral("VERSION");
    PrintNameNeutral("FIELDS");
    NeutralConcat(PrintName(command), ":");
    NeutralConcat(PrintName(name), ":");
    NeutralConcat(PrintName("FIELDS"), ":");
    NotationPlain(version);
    PlainIsNeutral(":" + Decimal.Notation(version) + ",");
    NeutralThree(PrintName("VERSION"), ":" + Decimal.Notation(version) + ",", PrintName("FIELDS") + ":");
  }

  // A request with one string field is loaded if and only if the string does not end in a backslash.
  lemma OneStringLoadsIff(table: seq<FieldDef>, command: string, version: int, n: nat, value: string)
    requires TableOk(table) && CleanCommand(command) && n < |table| && table[n].ftype == StringType
    ensures var fields := [Field(n, Str(Some(value)))];
            LoadMessage(table, PrintRequest(table, command, version, fields)) == Request(Message(command, version, [fields]))
            <==> !EndsInSlash(value)
  {
    if EndsInSlash(value) {
      NotLoaded(table, command, version, n, value);
    } else {
      var fields := [Field(n, Str(Some(value)))];
      LoadOfPrinted(table, command, version, fields);
      assert UpToMissing(fields) == [fields[0]] + UpToMissing(fields[1..]) == fields;
    }
  }
}
