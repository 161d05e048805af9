/**
 Loading a printed request gives the request back.
 */
module JsonRoundTrip {
  import opened Options
  import opened JsonStrings
  import opened JsonObjects
  import opened JsonMessages
  import Decimal

  // -------------------------------------------------------------------------
  // Values
  // -------------------------------------------------------------------------

  // What may follow a value: nothing, or a comma.
  predicate Follows(rest: string) {
    rest == [] || rest[0] == ','
  }

  lemma NotationStart(n: int)
    ensures Decimal.Notation(n) != [] && (Decimal.IsDigit(Decimal.Notation(n)[0]) || Decimal.Notation(n)[0] == '-')
  {
  }

  lemma GetNumOf(n: int, rest: string)
    requires Follows(rest)
    ensures GetNum(Decimal.Notation(n) + rest) == Some((n, rest))
  {
    var t := Decimal.Notation(n) + rest;
    NotationStart(n);
    assert t[0] == Decimal.Notation(n)[0];
    SkipNothing(t, BLANKS);
    Decimal.ReadUndoesNotation(n, rest);
    assert t[|Decimal.Notation(n)|..] == rest;
    hide SkipChars;
  }

  lemma GetBoolOf(b: bool, rest: string)
    ensures GetBool((if b then "true" else "false") + rest) == Some((b, rest))
  {
    var word := if b then "true" else "false";
    var t := word + rest;
    SkipNothing(t, BLANKS);
    assert t[..|word|] == word && t[|word|..] == rest;
    if !b { assert t[0] == 'f'; }
  }

  lemma UpToHere(t: string)
    requires t == [] || t[0] == ',' || t[0] == ']'
    ensures UpTo(t, ",]") == t
  {
  }

  lemma {:induction false} GetItemsOf(items: seq<Option<string>>, rest: string)
    requires AllItems(items)
    ensures GetItems(PrintItems(items) + "]" + rest) == Some((items, rest))
    decreases |items|
  {
    hide GetString, UpTo, PrintString;
    var t := PrintItems(items) + "]" + rest;
    if items == [] {
      assert t[0] == ']' && t[1..] == rest;
      NoStringHere(t);
    } else {
      var s := items[0].value;
      var more := if |items| == 1 then "]" + rest else "," + (PrintItems(items[1..]) + "]" + rest);
      assert t == PrintString(s) + more;
      GetStringOf(s, more);
      UpToHere(more);
      if |items| == 1 {
        assert more[1..] == rest && items == [items[0]];
      } else {
        assert more[1..] == PrintItems(items[1..]) + "]" + rest;
        GetItemsOf(items[1..], rest);
        assert items == [items[0]] + items[1..];
      }
    }
  }

  lemma NoStringHere(t: string)
    requires t != [] && t[0] == ']'
    ensures GetString(t).None?
  {
    SkipNothing(t, BLANKS);
  }

  lemma {:induction false} GetPairsOf(pairs: seq<(string, Option<string>)>, sep: string)
    requires CleanValue(Map(pairs), MapType) && (sep == "" || sep == ",")
    ensures GetPairs(sep + PrintPairs(pairs)) == Some(pairs)
    decreases |pairs|
  {
    hide GetString, GetName, PrintString, PrintName;
    var t := sep + PrintPairs(pairs);
    if pairs == [] {
      assert t == sep;
      NoNameHere(sep);
    } else {
      var (key, value) := pairs[0];
      var tail := if |pairs| == 1 then "" else "," + PrintPairs(pairs[1..]);
      var rest := PrintString(value.value) + tail;
      assert t == sep + PrintName(key) + ":" + rest;
      StringStart(value.value, tail);
      GetNameOf(sep, key, rest);
      GetStringOf(value.value, tail);
      if |pairs| == 1 {
        GetPairsOf([], "");
        assert tail == "" + PrintPairs([]) && pairs == [pairs[0]] + [];
      } else {
        GetPairsOf(pairs[1..], ",");
        assert pairs == [pairs[0]] + pairs[1..];
      }
    }
  }

  lemma StringStart(s: string, tail: string)
    ensures PrintString(s) + tail != [] && (PrintString(s) + tail)[0] == QUOTE
  {
  }

  lemma NoNameHere(sep: string)
    requires sep == "" || sep == ","
    ensures GetName(sep).None?
  {
    if sep == "," { assert sep[1..] == [] && ',' in BEFORE_NAME; }
    assert SkipChars(sep, BEFORE_NAME) == [];
  }

  // -------------------------------------------------------------------------
  // Complete tokens
  // -------------------------------------------------------------------------

  lemma PrintStringNeutral(s: string)
    requires !EndsInSlash(s)
    ensures Neutral(PrintString(s))
  {
    StringIsNeutral(s);
  }

  lemma {:induction false} NameShielded(n: string, prev: char)
    requires NameChars(n)
    ensures Shielded(n, prev)
  {
    if n != [] { NameShielded(n[1..], n[0]); }
  }

  lemma PrintNameNeutral(n: string)
    requires NameChars(n)
    ensures Neutral(PrintName(n))
  {
    NameShielded(n, QUOTE);
    QuotedIsNeutral(n);
  }

  lemma NeutralThree(a: string, b: string, c: string)
    requires Neutral(a) && Neutral(b) && Neutral(c)
    ensures Neutral(a + b + c)
  {
    NeutralConcat(a, b);
    NeutralConcat(a + b, c);
  }

  lemma {:induction false} ItemsNeutral(items: seq<Option<string>>)
    requires CleanValue(Arr(items), ArrayType)
    ensures Neutral(PrintItems(items))
    decreases |items|
  {
    hide Neutral, PrintString;
    if items == [] {
      PlainIsNeutral("");
    } else {
      PrintStringNeutral(items[0].value);
      if |items| > 1 {
        ItemsNeutral(items[1..]);
        PlainIsNeutral(",");
        NeutralThree(PrintString(items[0].value), ",", PrintItems(items[1..]));
      }
    }
  }

  lemma PairNeutral(p: (string, Option<string>))
    requires NameChars(p.0) && p.1.Some? && !EndsInSlash(p.1.value)
    ensures Neutral(PrintPair(p))
  {
    hide Neutral, PrintString, PrintName;
    PrintNameNeutral(p.0);
    PlainIsNeutral(":");
    PrintStringNeutral(p.1.value);
    NeutralThree(PrintName(p.0), ":", PrintString(p.1.value));
  }

  lemma {:induction false} PairsNeutral(pairs: seq<(string, Option<string>)>)
    requires CleanValue(Map(pairs), MapType)
    ensures Neutral(PrintPairs(pairs))
    decreases |pairs|
  {
    hide Neutral, PrintPair;
    if pairs == [] {
      PlainIsNeutral("");
    } else {
      PairNeutral(pairs[0]);
      if |pairs| > 1 {
        PairsNeutral(pairs[1..]);
        PlainIsNeutral(",");
        NeutralThree(PrintPair(pairs[0]), ",", PrintPairs(pairs[1..]));
      }
    }
  }

  lemma NotationPlain(n: int)
    ensures AllPlain(Decimal.Notation(n))
  {
    var d := Decimal.Digits(if n < 0 then -n else n);
    assert forall i :: 0 <= i < |d| ==> Decimal.IsDigit(d[i]);
  }

  lemma ValueNeutral(v: Value, ftype: FieldType)
    requires CleanValue(v, ftype)
    ensures Writable(v) && Neutral(PrintValue(v))
  {
    hide Neutral;
    match v
    case Num(n) => NotationPlain(n); PlainIsNeutral(PrintValue(v));
    case Bool(_) => PlainIsNeutral(PrintValue(v));
    case Str(s) => if s.Some? { PrintStringNeutral(s.value); } else { PlainIsNeutral("null"); }
    case Arr(items) => ItemsNeutral(items); PlainIsNeutral("["); PlainIsNeutral("]"); NeutralThree("[", PrintItems(items), "]");
    case Map(pairs) => PairsNeutral(pairs); BracedIsNeutral(PrintPairs(pairs));
  }

  lemma FieldNeutral(table: seq<FieldDef>, f: Field)
    requires TableOk(table) && CleanField(table, f)
    ensures Known(table, f) && Neutral(PrintField(table, f))
  {
    hide Neutral, PrintValue, PrintName;
    ValueNeutral(f.value, table[f.number].ftype);
    PrintNameNeutral(table[f.number].name);
    PlainIsNeutral(":");
    NeutralThree(PrintName(table[f.number].name), ":", PrintValue(f.value));
  }

  predicate Clean(table: seq<FieldDef>, fields: seq<Field>) {
    TableOk(table) && forall i :: 0 <= i < |fields| ==> CleanField(table, fields[i])
  }

  lemma CleanIsKnown(table: seq<FieldDef>, fields: seq<Field>)
    requires Clean(table, fields)
    ensures forall i :: 0 <= i < |fields| ==> Known(table, fields[i])
  {
  }

  lemma {:induction false} FieldsNeutral(table: seq<FieldDef>, fields: seq<Field>)
    requires Clean(table, fields)
    ensures (forall i :: 0 <= i < |fields| ==> Known(table, fields[i])) && Neutral(PrintFields(table, fields))
    decreases |fields|
  {
    CleanIsKnown(table, fields);
    hide Neutral, PrintField, Known;
    if fields == [] {
      PlainIsNeutral("");
    } else {
      FieldNeutral(table, fields[0]);
      if |fields| > 1 {
        FieldsNeutral(table, fields[1..]);
        PlainIsNeutral(",");
        NeutralThree(PrintField(table, fields[0]), ",", PrintFields(table, fields[1..]));
      }
    }
  }

  // -------------------------------------------------------------------------
  // Fields
  // -------------------------------------------------------------------------

  predicate Missing(v: Value) {
    v == Str(None)
  }

  // A value is read back with everything behind it left to read; a missing string is read as missing,
  // but stays in the text.
  lemma GetValueOf(v: Value, ftype: FieldType, rest: string)
    requires CleanValue(v, ftype) && Follows(rest)
    ensures Writable(v) && GetValue(PrintValue(v) + rest, ftype) == Some((v, if Missing(v) then "null" + rest else rest))
  {
    hide GetString, GetNum, GetBool, GetArray, GetMap, PrintString, PrintItems, PrintPairs;
    match v
    case Num(n) => GetNumOf(n, rest);
    case Bool(b) => GetBoolOf(b, rest);
    case Str(s) => if s.Some? { GetStringOf(s.value, rest); } else { GetNull(rest); }
    case Arr(items) => GetArrayOf(items, rest);
    case Map(pairs) => GetMapOf(pairs, rest);
  }

  lemma GetArrayOf(items: seq<Option<string>>, rest: string)
    requires AllItems(items)
    ensures GetArray("[" + PrintItems(items) + "]" + rest) == Some((items, rest))
  {
    hide GetItems, PrintItems;
    var t := "[" + PrintItems(items) + "]" + rest;
    assert t[0] == '[' && t[1..] == PrintItems(items) + "]" + rest;
    SkipNothing(t, BLANKS);
    GetItemsOf(items, rest);
  }

  lemma GetMapOf(pairs: seq<(string, Option<string>)>, rest: string)
    requires CleanValue(Map(pairs), MapType)
    ensures AllValues(pairs) && GetMap("{" + PrintPairs(pairs) + "}" + rest) == Some((pairs, rest))
  {
    hide GetObject, GetPairs, PrintPairs, Neutral;
    PairsNeutral(pairs);
    GetObjectOf(PrintPairs(pairs), rest);
    GetPairsOf(pairs, "");
    assert "" + PrintPairs(pairs) == PrintPairs(pairs);
  }

  lemma GetNull(rest: string)
    ensures GetString("null" + rest) == Some((None, "null" + rest))
  {
    var t := "null" + rest;
    assert t[0] == 'n' && t[..4] == "null";
    SkipNothing(t, BLANKS);
  }

  // Behind a missing string no name is found any more.
  lemma NoNameBehindNull(rest: string)
    ensures GetName("null" + rest).None?
  {
    var t := "null" + rest;
    assert t[0] == 'n';
    SkipNothing(t, BEFORE_NAME);
    GetNull(rest);
  }

  lemma ValueStart(v: Value, rest: string)
    requires Writable(v)
    ensures PrintValue(v) + rest != [] && (PrintValue(v) + rest)[0] !in AFTER_NAME
  {
    match v
    case Num(n) => NotationStart(n); assert (PrintValue(v) + rest)[0] == Decimal.Notation(n)[0];
    case Bool(b) => assert (PrintValue(v) + rest)[0] == if b then 't' else 'f';
    case Str(s) => assert (PrintValue(v) + rest)[0] == if s.Some? then QUOTE else 'n';
    case Arr(_) => assert (PrintValue(v) + rest)[0] == '[';
    case Map(_) => assert (PrintValue(v) + rest)[0] == '{';
  }

  lemma {:induction false} FieldNumberOf(table: seq<FieldDef>, n: nat)
    requires TableOk(table) && n < |table|
    ensures FieldNumber(table, table[n].name) == n
  {
    if n > 0 {
      assert table[0].name != table[n].name;
      FieldNumberOf(table[1..], n - 1);
    }
  }

  // The fields up to and with the first missing string.
  function UpToMissing(fields: seq<Field>): seq<Field> {
    if fields == [] then [] else if Missing(fields[0].value) then [fields[0]] else [fields[0]] + UpToMissing(fields[1..])
  }

  function Prefixed(f: Field, r: Option<seq<Field>>): Option<seq<Field>> {
    if r.None? then None else Some([f] + r.value)
  }

  lemma LoadOneField(table: seq<FieldDef>, f: Field, sep: string, tail: string)
    requires TableOk(table) && CleanField(table, f) && (sep == "" || sep == ",") && Follows(tail)
    ensures Known(table, f)
    ensures LoadFields(table, sep + PrintField(table, f) + tail) == if Missing(f.value) then Some([f]) else Prefixed(f, LoadFields(table, tail))
  {
    CleanIsKnown(table, [f]);
    assert [f][0] == f;
    var name := table[f.number].name;
    var rest := PrintValue(f.value) + tail;
    NamedText(sep, PrintName(name), PrintValue(f.value), tail);
    ValueStart(f.value, tail);
    GetNameOf(sep, name, rest);
    FieldNumberOf(table, f.number);
    GetValueOf(f.value, table[f.number].ftype, tail);
    hide GetName, GetValue, PrintName, PrintValue, FieldNumber, Upper, LoadFields, TableOk;
    var after := if Missing(f.value) then "null" + tail else tail;
    LoadStep(table, sep + PrintField(table, f) + tail, name, rest, f, after);
    if Missing(f.value) { LoadBehindNull(table, tail); assert [f] + [] == [f]; }
  }

  lemma NamedText(sep: string, name: string, value: string, tail: string)
    ensures sep + (name + ":" + value) + tail == sep + name + ":" + (value + tail)
  {
  }

  lemma CommaText(sep: string, first: string, more: string)
    ensures sep + (first + "," + more) == sep + first + ("," + more) && sep + first == sep + first + ""
  {
  }

  lemma LoadBehindNull(table: seq<FieldDef>, rest: string)
    ensures LoadFields(table, "null" + rest) == Some([])
  {
    NoNameBehindNull(rest);
  }

  lemma LoadStep(table: seq<FieldDef>, t: string, name: string, rest: string, f: Field, after: string)
    requires GetName(t) == Some((name, rest)) && FieldNumber(table, Upper(name)) == f.number < |table|
    requires GetValue(rest, table[f.number].ftype) == Some((f.value, after))
    ensures LoadFields(table, t) == Prefixed(f, LoadFields(table, after))
  {
    hide GetName, GetValue, FieldNumber;
  }

  lemma {:induction false} LoadFieldsOf(table: seq<FieldDef>, fields: seq<Field>, sep: string)
    requires Clean(table, fields) && (sep == "" || sep == ",")
    ensures (forall i :: 0 <= i < |fields| ==> Known(table, fields[i]))
            && LoadFields(table, sep + PrintFields(table, fields)) == Some(UpToMissing(fields))
    decreases |fields|
  {
    CleanIsKnown(table, fields);
    hide GetName, PrintField, Known, LoadFields, CleanField, TableOk;
    if fields == [] {
      LoadNothing(table, sep);
      assert sep + "" == sep;
    } else {
      var f, more := fields[0], fields[1..];
      var tail := if |fields| == 1 then "" else "," + PrintFields(table, more);
      CommaText(sep, PrintField(table, f), PrintFields(table, more));
      assert sep + PrintFields(table, fields) == sep + PrintField(table, f) + tail;
      LoadOneField(table, f, sep, tail);
      if |fields| == 1 {
        LoadNothing(table, "");
      } else {
        LoadFieldsOf(table, more, ",");
      }
    }
  }

  lemma LoadNothing(table: seq<FieldDef>, sep: string)
    requires sep == "" || sep == ","
    ensures LoadFields(table, sep) == Some([])
  {
    NoNameHere(sep);
  }

  // -------------------------------------------------------------------------
  // Requests
  // -------------------------------------------------------------------------

  predicate CleanCommand(command: string) {
    CleanName(command) && command != "ERROR" && command != "RESP"
  }

  lemma {:induction false} UpperSame(s: string)
    requires forall i :: 0 <= i < |s| ==> !('a' <= s[i] <= 'z')
    ensures Upper(s) == s
  {
    if s != [] { UpperSame(s[1..]); }
  }

  lemma UpperNames()
    ensures Upper("VERSION") == "VERSION" && Upper("FIELDS") == "FIELDS"
  {
    UpperSame("VERSION");
    UpperSame("FIELDS");
    hide Upper;
  }

  lemma VersionName()
    ensures CleanName("VERSION") && CleanName("FIELDS")
  {
    UpperNames();
    hide Upper;
  }

  lemma LoadBody(table: seq<FieldDef>, m: Message, version: int, fields: seq<Field>)
    requires Clean(table, fields)
    ensures (forall i :: 0 <= i < |fields| ==> Known(table, fields[i]))
            && LoadParts(table, m, PrintBody(version, PrintFields(table, fields)))
               == Some(m.(version := version, items := m.items + [UpToMissing(fields)]))
  {
    FieldsNeutral(table, fields);
    var inner := PrintFields(table, fields);
    LoadFieldsOf(table, fields, "");
    assert "" + inner == inner;
    hide Neutral, PrintName, GetName, GetNum, GetObject, LoadFields, PrintFields, UpToMissing, Known, Clean;
    LoadTwoParts(table, m, version, inner, UpToMissing(fields));
  }

  lemma BodyText(v: string, n: string, f: string, inner: string)
    ensures v + ":" + n + "," + f + ":" + "{" + inner + "}" == "" + v + ":" + (n + ("," + f + ":" + ("{" + inner + "}")))
  {
  }

  lemma LoadTwoParts(table: seq<FieldDef>, m: Message, version: int, inner: string, fields: seq<Field>)
    requires Neutral(inner) && LoadFields(table, inner) == Some(fields)
    ensures LoadParts(table, m, PrintBody(version, inner)) == Some(m.(version := version, items := m.items + [fields]))
  {
    VersionName();
    hide Neutral, PrintName, GetName, GetNum, GetObject, LoadFields, LoadParts, Upper, NameChars;
    var braced := "{" + inner + "}";
    var tail := "," + PrintName("FIELDS") + ":" + braced;
    BodyText(PrintName("VERSION"), Decimal.Notation(version), PrintName("FIELDS"), inner);
    VersionPart(table, m, version, tail);
    GetNameOf(",", "FIELDS", braced);
    assert braced == braced + "";
    GetObjectOf(inner, "");
    FieldsStep(table, m.(version := version), tail, braced, inner, fields);
  }

  lemma VersionPart(table: seq<FieldDef>, m: Message, version: int, tail: string)
    requires Follows(tail)
    ensures LoadParts(table, m, "" + PrintName("VERSION") + ":" + (Decimal.Notation(version) + tail))
            == LoadParts(table, m.(version := version), tail)
  {
    VersionName();
    hide PrintName, GetName, GetNum, LoadParts, Upper, NameChars;
    var number := Decimal.Notation(version) + tail;
    NotationStart(version);
    assert number[0] == Decimal.Notation(version)[0];
    GetNameOf("", "VERSION", number);
    GetNumOf(version, tail);
    VersionStep(table, m, "" + PrintName("VERSION") + ":" + number, number, version, tail);
  }

  lemma VersionStep(table: seq<FieldDef>, m: Message, t: string, rest: string, version: int, after: string)
    requires GetName(t) == Some(("VERSION", rest)) && GetNum(rest) == Some((version, after))
    ensures LoadParts(table, m, t) == LoadParts(table, m.(version := version), after)
  {
    UpperNames();
    hide GetName, GetNum, Upper, LoadItems, GetObject, LoadFields, SkipChars;
  }

  lemma FieldsStep(table: seq<FieldDef>, m: Message, t: string, rest: string, inner: string, fields: seq<Field>)
    requires GetName(t) == Some(("FIELDS", rest)) && GetObject(rest) == Some((inner, "")) && LoadFields(table, inner) == Some(fields)
    ensures LoadParts(table, m, t) == Some(m.(items := m.items + [fields]))
  {
    UpperNames();
    NoNameHere("");
    hide GetName, GetObject, Upper, LoadFields, LoadItems, GetNum, SkipChars;
    var m' := m.(items := m.items + [fields]);
    assert LoadParts(table, m', "") == Some(m');
  }

  lemma BodyNeutral(version: int, inner: string)
    requires Neutral(inner)
    ensures Neutral(PrintBody(version, inner))
  {
    hide Neutral, PrintName;
    VersionName();
    PrintNameNeutral("VERSION");
    PrintNameNeutral("FIELDS");
    NotationPlain(version);
    PlainIsNeutral(":" + Decimal.Notation(version) + ",");
    PlainIsNeutral(":");
    BracedIsNeutral(inner);
    NeutralThree(PrintName("FIELDS"), ":", "{" + inner + "}");
    NeutralThree(PrintName("VERSION"), ":" + Decimal.Notation(version) + ",", PrintName("FIELDS") + ":" + ("{" + inner + "}"));
    assert PrintBody(version, inner)
           == PrintName("VERSION") + (":" + Decimal.Notation(version) + ",") + (PrintName("FIELDS") + ":" + ("{" + inner + "}"));
  }

  // The outer braces and the command.
  lemma LoadEnvelope(table: seq<FieldDef>, command: string, body: string, m: Message)
    requires CleanCommand(command) && Neutral(body) && LoadParts(table, Message(command, 0, []), body) == Some(m)
    ensures LoadMessage(table, "{" + (PrintName(command) + ":" + "{" + body + "}") + "}" + "\n") == Request(m)
  {
    hide Neutral, PrintName, GetName, GetObject, LoadParts;
    PrintNameNeutral(command);
    PlainIsNeutral(":");
    BracedIsNeutral(body);
    NeutralThree(PrintName(command), ":", "{" + body + "}");
    var whole := PrintName(command) + ":" + ("{" + body + "}");
    assert PrintName(command) + ":" + "{" + body + "}" == whole;
    GetObjectOf(whole, "\n");
    assert whole == "" + PrintName(command) + ":" + ("{" + body + "}");
    GetNameOf("", command, "{" + body + "}");
    assert "{" + body + "}" == "{" + body + "}" + "";
    GetObjectOf(body, "");
  }

  // A printed request loads as its command, its version and its fields, up to and with the first missing
  // string.
  lemma LoadOfPrinted(table: seq<FieldDef>, command: string, version: int, fields: seq<Field>)
    requires CleanCommand(command) && Clean(table, fields)
    ensures (forall i :: 0 <= i < |fields| ==> Known(table, fields[i]))
            && LoadMessage(table, PrintRequest(table, command, version, fields))
               == Request(Message(command, version, [UpToMissing(fields)]))
  {
    FieldsNeutral(table, fields);
    var inner := PrintFields(table, fields);
    var m := Message(command, 0, []);
    LoadBody(table, m, version, fields);
    hide Neutral, LoadParts, PrintFields, UpToMissing, PrintBody, Clean, Known, LoadMessage;
    BodyNeutral(version, inner);
    assert m.(version := version, items := m.items + [UpToMissing(fields)]) == Message(command, version, [UpToMissing(fields)]);
    LoadEnvelope(table, command, PrintBody(version, inner), Message(command, version, [UpToMissing(fields)]));
  }

  lemma {:induction false} UpToMissingIsAll(fields: seq<Field>)
    ensures UpToMissing(fields) == fields <==> forall i :: 0 <= i < |fields| - 1 ==> !Missing(fields[i].value)
  {
    if fields != [] {
      assert fields == [fields[0]] + fields[1..];
      if Missing(fields[0].value) {
        assert |fields| > 1 ==> Missing(fields[0].value) && |UpToMissing(fields)| != |fields|;
      } else {
        UpToMissingIsAll(fields[1..]);
        assert UpToMissing(fields)[1..] == UpToMissing(fields[1..]);
        assert forall i :: 0 < i < |fields| ==> fields[i] == fields[1..][i - 1];
      }
    }
  }

  // The round trip: a request comes back whole if and only if no string but the last is missing.
  lemma RoundTripIff(table: seq<FieldDef>, command: string, version: int, fields: seq<Field>)
    requires CleanCommand(command) && Clean(table, fields)
    ensures (forall i :: 0 <= i < |fields| ==> Known(table, fields[i]))
            && (LoadMessage(table, PrintRequest(table, command, version, fields)) == Request(Message(command, version, [fields]))
                <==> forall i :: 0 <= i < |fields| - 1 ==> !Missing(fields[i].value))
  {
    LoadOfPrinted(table, command, version, fields);
    UpToMissingIsAll(fields);
    hide LoadMessage, PrintRequest, UpToMissing, Clean, Known;
    if UpToMissing(fields) != fields { assert [UpToMissing(fields)][0] != [fields][0]; }
  }
}
