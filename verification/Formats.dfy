/**
 The texts themselves: a request, a job file and a journal spelled out, so that writers and parsers agree
 with the messages and files of the program and not only with each other.
 */
module Formats {
  import opened Options
  import Decimal
  import JsonStrings
  import opened JsonMessages
  import StateFile
  import StateLines
  import JournalRoundTrip

  // -------------------------------------------------------------------------
  // A request
  // -------------------------------------------------------------------------

  const TABLE := [FieldDef("JOBID", NumType), FieldDef("HOLD", BoolType), FieldDef("JOBNAME", StringType),
                  FieldDef("ARGS", ArrayType), FieldDef("TAGS", MapType)]

  lemma ValueTexts()
    ensures PrintValue(Num(-120)) == "-120" && PrintValue(Bool(true)) == "true" && PrintValue(Str(None)) == "null"
    ensures PrintValue(Str(Some("a\"\\\n\t"))) == "\"a\\\"\\\\\\n\\t\""
  {
    EscapedText();
  }

  lemma EscapedText()
    ensures JsonStrings.Escape("a\"\\\n\t") == "a\\\"\\\\\\n\\t"
  {
    assert "a\"\\\n\t"[1..] == "\"\\\n\t" && "\"\\\n\t"[1..] == "\\\n\t" && "\\\n\t"[1..] == "\n\t" && "\n\t"[1..] == "\t" && "\t"[1..] == "";
    assert JsonStrings.Escape("\t") == "\\t";
    assert JsonStrings.Escape("\n\t") == "\\n\\t";
    assert JsonStrings.Escape("\\\n\t") == "\\\\\\n\\t";
  }

  lemma ArrayText()
    ensures PrintValue(Arr([Some("x"), Some("y")])) == "[\"x\",\"y\"]"
  {
    var items := [Some("x"), Some("y")];
    assert items[1..] == [Some("y")];
    assert JsonStrings.Escape("x") == "x" && JsonStrings.Escape("y") == "y";
    assert PrintItems([Some("y")]) == "\"y\"";
    assert PrintItems(items) == "\"x\"" + "," + "\"y\"";
  }

  lemma MapText()
    ensures PrintValue(Map([("k", Some("v"))])) == "{\"k\":\"v\"}"
  {
    assert JsonStrings.Escape("v") == "v";
    assert PrintPair(("k", Some("v"))) == "\"k\":\"v\"";
  }

  lemma FieldTexts()
    ensures PrintField(TABLE, Field(0, Num(-120))) == "\"JOBID\":-120"
    ensures PrintField(TABLE, Field(1, Bool(true))) == "\"HOLD\":true"
  {
    ValueTexts();
    hide PrintValue;
    assert PrintName("JOBID") == "\"JOBID\"" && PrintName("HOLD") == "\"HOLD\"";
  }

  lemma BodyText(fields: string)
    ensures PrintBody(2, fields) == "\"VERSION\":2,\"FIELDS\":{" + fields + "}"
  {
    assert PrintName("VERSION") == "\"VERSION\"" && PrintName("FIELDS") == "\"FIELDS\"";
    assert Decimal.Notation(2) == "2";
  }

  lemma FieldsText()
    ensures PrintFields(TABLE, [Field(0, Num(-120)), Field(1, Bool(true))]) == "\"JOBID\":-120,\"HOLD\":true"
  {
    var fields := [Field(0, Num(-120)), Field(1, Bool(true))];
    FieldTexts();
    hide PrintField;
    assert fields[1..] == [Field(1, Bool(true))];
    assert PrintFields(TABLE, fields) == "\"JOBID\":-120" + "," + "\"HOLD\":true";
  }

  // A request as it goes over the wire, around whatever fields.
  lemma RequestText(fields: seq<Field>)
    requires forall i :: 0 <= i < |fields| ==> Known(TABLE, fields[i])
    ensures PrintRequest(TABLE, "ADD_JOB", 2, fields) == "{\"ADD_JOB\":{\"VERSION\":2,\"FIELDS\":{" + PrintFields(TABLE, fields) + "}}}\n"
  {
    var text := PrintFields(TABLE, fields);
    BodyText(text);
    Opening();
    hide PrintName, PrintFields, PrintBody;
    Regroup("{", PrintName("ADD_JOB") + ":" + "{", "\"VERSION\":2,\"FIELDS\":{", text, "}", "}", "}", "\n");
  }

  lemma Opening()
    ensures "{" + (PrintName("ADD_JOB") + ":" + "{") + "\"VERSION\":2,\"FIELDS\":{" == "{\"ADD_JOB\":{\"VERSION\":2,\"FIELDS\":{"
    ensures "}" + "}" + "}" + "\n" == "}}}\n"
  {
    assert PrintName("ADD_JOB") == "\"ADD_JOB\"";
    assert "{" + ("\"ADD_JOB\"" + ":" + "{") == "{\"ADD_JOB\":{";
  }

  lemma Regroup(a: string, b: string, c: string, text: string, d: string, e: string, f: string, g: string)
    ensures a + (b + (c + text + d) + e) + f + g == (a + b + c) + text + (d + e + f + g)
  {
  }

  // -------------------------------------------------------------------------
  // A job file
  // -------------------------------------------------------------------------

  lemma LineTexts()
    ensures StateLines.StringLine(StateLines.Name, "a\nb") == "JOBNAME a\\nb"
    ensures StateLines.EntryLine(StateLines.Args, 12, "x") == "ARGV[12] x"
    ensures StateLines.ListLines(StateLines.Envs, ["P=1"]) == ["ENV_COUNT 1", "ENV[0] P=1"]
    ensures StateLines.TagText(("k", "v\\\t")) == "k\tv\\\\\\t"
  {
    assert "a\nb"[1..] == "\nb" && "\nb"[1..] == "b" && "v\\\t"[1..] == "\\\t" && "\\\t"[1..] == "\t";
    assert StateFile.Escape("b") == "b" && StateFile.Escape("\nb") == "\\nb" && StateFile.Escape("\t") == "\\t";
    assert StateFile.Escape("\\\t") == "\\\\\\t";
    assert Decimal.Digits(12) == "12" && Decimal.Digits(1) == "1" && Decimal.Digits(0) == "0";
    assert StateLines.EntryLine(StateLines.Envs, 0, "P=1") == "ENV[0] P=1";
    assert ["P=1"][1..] == [] && StateLines.CountKey(StateLines.Envs) + " " + "1" == "ENV_COUNT 1";
    assert StateLines.EntryLines(StateLines.Envs, 0, ["P=1"]) == ["ENV[0] P=1"];
  }

  lemma KeyTexts()
    ensures StateLines.StringLine(StateLines.Shell, "s") == "SHELL s" && StateLines.StringLine(StateLines.Pre, "s") == "PRECMD s"
    ensures StateLines.StringLine(StateLines.Post, "s") == "POSTCMD s"
    ensures StateLines.StringLine(StateLines.Out, "s") == "STDOUT s" && StateLines.StringLine(StateLines.Err, "s") == "STDERR s"
    ensures StateLines.ListLines(StateLines.Args, []) == ["ARGC 0"] && StateLines.ListLines(StateLines.Tags, []) == ["TAG_COUNT 0"]
    ensures StateLines.EntryLine(StateLines.Tags, 3, "t") == "TAG[3] t"
  {
    assert StateFile.Escape("s") == "s" && Decimal.Digits(0) == "0" && Decimal.Digits(3) == "3";
    assert StateLines.CountKey(StateLines.Args) + " " + "0" == "ARGC 0" && StateLines.CountKey(StateLines.Tags) + " " + "0" == "TAG_COUNT 0";
  }

  // -------------------------------------------------------------------------
  // A journal
  // -------------------------------------------------------------------------

  // A record that a save has covered, one that is still to be replayed, the closing line and the reserve.
  lemma JournalText()
    ensures JournalRoundTrip.Image(JournalRoundTrip.Journal([JournalRoundTrip.Entry(true, "A"), JournalRoundTrip.Entry(false, "B")], true, 2))
            == "*A\n B\n$\n" + [0 as char, 0 as char]
  {
  }
}
