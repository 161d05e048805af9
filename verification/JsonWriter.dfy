/**
 The writer of requests: text is appended to a growing buffer, every field with a comma behind it which
 the end of the enclosing object takes back.
 */
module JsonWriter {
  import opened Options
  import opened JsonStrings
  import opened JsonMessages
  import Decimal

  // A list of printed fields with the comma behind each.
  function WithCommas(table: seq<FieldDef>, fields: seq<Field>): string
    requires forall i :: 0 <= i < |fields| ==> Known(table, fields[i])
  {
    if fields == [] then "" else PrintFields(table, fields) + ","
  }

  function PairsWithCommas(pairs: seq<(string, Option<string>)>): string
    requires AllValues(pairs)
  {
    if pairs == [] then "" else PrintPairs(pairs) + ","
  }

  lemma {:induction false} FieldsNext(table: seq<FieldDef>, fields: seq<Field>, n: nat)
    requires n < |fields| && forall i :: 0 <= i < |fields| ==> Known(table, fields[i])
    ensures PrintFields(table, fields[..n + 1]) == PrintFields(table, fields[..n]) + (if n == 0 then "" else ",") + PrintField(table, fields[n])
    decreases n
  {
    hide PrintField, Known;
    if n == 0 {
      assert fields[..1] == [fields[0]] && fields[..0] == [];
    } else {
      FieldsNext(table, fields[1..], n - 1);
      assert fields[..n + 1][1..] == fields[1..][..n] && fields[..n][1..] == fields[1..][..n - 1];
      assert fields[..n + 1][0] == fields[0] == fields[..n][0];
      if n == 1 { assert fields[1..][..0] == []; }
    }
  }

  lemma FieldAndComma(table: seq<FieldDef>, fields: seq<Field>, n: nat)
    requires n < |fields| && forall i :: 0 <= i < |fields| ==> Known(table, fields[i])
    ensures WithCommas(table, fields[..n + 1]) == WithCommas(table, fields[..n]) + (PrintField(table, fields[n]) + ",")
  {
    FieldsNext(table, fields, n);
    hide PrintField, PrintFields, Known;
  }

  lemma {:induction false} PairsNext(pairs: seq<(string, Option<string>)>, n: nat)
    requires n < |pairs| && AllValues(pairs)
    ensures PrintPairs(pairs[..n + 1]) == PrintPairs(pairs[..n]) + (if n == 0 then "" else ",") + PrintPair(pairs[n])
    decreases n
  {
    hide PrintPair;
    if n == 0 {
      assert pairs[..1] == [pairs[0]] && pairs[..0] == [];
    } else {
      PairsNext(pairs[1..], n - 1);
      assert pairs[..n + 1][1..] == pairs[1..][..n] && pairs[..n][1..] == pairs[1..][..n - 1];
      assert pairs[..n + 1][0] == pairs[0] == pairs[..n][0];
      if n == 1 { assert pairs[1..][..0] == []; }
    }
  }

  lemma PairAndComma(pairs: seq<(string, Option<string>)>, n: nat)
    requires n < |pairs| && AllValues(pairs)
    ensures PairsWithCommas(pairs[..n + 1]) == PairsWithCommas(pairs[..n]) + (PrintPair(pairs[n]) + ",")
  {
    PairsNext(pairs, n);
    hide PrintPair, PrintPairs;
  }

  lemma {:induction false} ItemsNext(items: seq<Option<string>>, n: nat)
    requires n < |items| && AllItems(items)
    ensures PrintItems(items[..n + 1]) == PrintItems(items[..n]) + (if n == 0 then "" else ",") + PrintString(items[n].value)
    decreases n
  {
    hide PrintString;
    if n == 0 {
      assert items[..1] == [items[0]] && items[..0] == [];
    } else {
      ItemsNext(items[1..], n - 1);
      assert items[..n + 1][1..] == items[1..][..n] && items[..n][1..] == items[1..][..n - 1];
      assert items[..n + 1][0] == items[0] == items[..n][0];
      if n == 1 { assert items[1..][..0] == []; }
    }
  }

  class Buffer {
    var data: string

    constructor ()
      ensures data == ""
    {
      data := "";
    }

    method Add(text: string)
      modifies this
      ensures data == old(data) + text
    {
      data := data + text;
    }

    method AddName(name: string)
      modifies this
      ensures data == old(data) + (PrintName(name) + ":")
    {
      data := data + [QUOTE] + name + [QUOTE] + ":";
    }

    method AddInt(name: string, n: int)
      modifies this
      ensures data == old(data) + (PrintName(name) + ":" + PrintValue(Num(n)) + ",")
    {
      hide PrintName;
      AddName(name);
      data := data + Decimal.Notation(n) + ",";
      FieldText(old(data), PrintName(name), Decimal.Notation(n));
    }

    method AddBool(name: string, b: bool)
      modifies this
      ensures data == old(data) + (PrintName(name) + ":" + PrintValue(Bool(b)) + ",")
    {
      hide PrintName;
      AddName(name);
      data := data + (if b then "true" else "false") + ",";
      FieldText(old(data), PrintName(name), if b then "true" else "false");
    }

    method AddString(name: string, s: Option<string>)
      modifies this
      ensures data == old(data) + (PrintName(name) + ":" + PrintValue(Str(s)) + ",")
    {
      hide PrintName, Escape;
      AddName(name);
      if s.Some? {
        data := data + ([QUOTE] + Escape(s.value) + [QUOTE]);
      } else {
        data := data + "null";
      }
      data := data + ",";
      FieldText(old(data), PrintName(name), PrintValue(Str(s)));
    }

    method AddStringArray(name: string, items: seq<Option<string>>)
      requires AllItems(items)
      modifies this
      ensures data == old(data) + (PrintName(name) + ":" + PrintValue(Arr(items)) + ",")
    {
      hide PrintName, PrintItems;
      AddName(name);
      data := data + "[";
      AddItems(items);
      data := data + "]" + ",";
      ArrayText(old(data), PrintName(name), PrintItems(items));
    }

    method AddItems(items: seq<Option<string>>)
      requires AllItems(items)
      modifies this
      ensures data == old(data) + PrintItems(items)
    {
      assert PrintItems(items[..0]) == "";
      hide PrintString, PrintItems;
      for i := 0 to |items|
        invariant data == old(data) + PrintItems(items[..i])
      {
        ItemsNext(items, i);
        ghost var done, comma, more := PrintItems(items[..i]), if i == 0 then "" else ",", PrintString(items[i].value);
        if i != 0 {
          data := data + ",";
        }
        data := data + PrintString(items[i].value);
        AssocFour(old(data), done, comma, more);
      }
      assert items[..|items|] == items;
    }

    method StartObject(name: string)
      modifies this
      ensures data == old(data) + (PrintName(name) + ":" + "{")
    {
      AddName(name);
      data := data + "{";
    }

    // The comma behind the last field makes way for the brace.
    method EndObject()
      requires data != []
      modifies this
      ensures data == WithoutComma(old(data)) + "},"
    {
      if data[|data| - 1] == ',' {
        data := data[..|data| - 1] + "}";
        data := data + ",";
      } else {
        data := data + "},";
      }
    }

    method AddPairs(pairs: seq<(string, Option<string>)>)
      requires AllValues(pairs)
      modifies this
      ensures data == old(data) + PairsWithCommas(pairs)
    {
      assert PairsWithCommas(pairs[..0]) == "";
      hide PrintPair, PairsWithCommas;
      for i := 0 to |pairs|
        invariant data == old(data) + PairsWithCommas(pairs[..i])
      {
        PairAndComma(pairs, i);
        Assoc(old(data), PairsWithCommas(pairs[..i]), PrintPair(pairs[i]) + ",");
        data := data + (PrintPair(pairs[i]) + ",");
      }
      assert pairs[..|pairs|] == pairs;
    }

    method AddMap(name: string, pairs: seq<(string, Option<string>)>)
      requires AllValues(pairs)
      modifies this
      ensures data == old(data) + (PrintName(name) + ":" + PrintValue(Map(pairs)) + ",")
    {
      hide PrintName, PrintPairs;
      StartObject(name);
      ghost var start := data;
      AddPairs(pairs);
      assert PrintPairs([]) == "" by { PairsEmpty(); }
      CommaTakenBack(start, PrintPairs(pairs), pairs == []);
      EndObject();
      MapClosed(old(data), PrintName(name), PrintPairs(pairs));
    }

    method AddField(table: seq<FieldDef>, f: Field)
      requires Known(table, f)
      modifies this
      ensures data == old(data) + (PrintField(table, f) + ",")
    {
      hide PrintName, PrintValue;
      var name := table[f.number].name;
      match f.value
      case Num(n) => AddInt(name, n);
      case Bool(b) => AddBool(name, b);
      case Str(s) => AddString(name, s);
      case Arr(items) => AddStringArray(name, items);
      case Map(pairs) => AddMap(name, pairs);
    }

    method InitRequest(command: string, version: int)
      modifies this
      ensures data == "{" + (PrintName(command) + ":" + "{") + (PrintName("VERSION") + ":" + Decimal.Notation(version) + ",") + (PrintName("FIELDS") + ":" + "{")
    {
      hide PrintName;
      data := "{";
      StartObject(command);
      AddInt("VERSION", version);
      StartObject("FIELDS");
    }

    // Close the fields, the request and the message.
    method CloseRequest()
      requires data != []
      modifies this
      ensures data == WithoutComma(old(data)) + "}}}\n"
    {
      EndObject();
      EndObject();
      assert data == WithoutComma(old(data)) + "}},";
      data := data[..|data| - 1] + "}";
      data := data + "\n";
    }

    method AddFields(table: seq<FieldDef>, fields: seq<Field>)
      requires forall i :: 0 <= i < |fields| ==> Known(table, fields[i])
      modifies this
      ensures data == old(data) + WithCommas(table, fields)
    {
      assert WithCommas(table, fields[..0]) == "";
      hide PrintField, WithCommas, Known;
      for i := 0 to |fields|
        invariant data == old(data) + WithCommas(table, fields[..i])
      {
        FieldAndComma(table, fields, i);
        ghost var done, more := WithCommas(table, fields[..i]), PrintField(table, fields[i]) + ",";
        AddField(table, fields[i]);
        Assoc(old(data), done, more);
      }
      assert fields[..|fields|] == fields;
    }

    // A whole request.
    method WriteRequest(table: seq<FieldDef>, command: string, version: int, fields: seq<Field>)
      requires forall i :: 0 <= i < |fields| ==> Known(table, fields[i])
      modifies this
      ensures data == PrintRequest(table, command, version, fields)
    {
      hide PrintName, PrintFields, PrintRequest, Known;
      InitRequest(command, version);
      ghost var start := data;
      AddFields(table, fields);
      assert PrintFields(table, []) == "" by { FieldsEmpty(table); }
      CommaTakenBack(start, PrintFields(table, fields), fields == []);
      CloseRequest();
      RequestClosed(table, command, version, fields);
    }
  }

  lemma FieldsEmpty(table: seq<FieldDef>)
    ensures PrintFields(table, []) == ""
  {
  }

  lemma PairsEmpty()
    ensures PrintPairs([]) == ""
  {
  }

  lemma Assoc(a: string, b: string, c: string)
    ensures a + b + c == a + (b + c)
  {
  }

  function WithoutComma(s: string): string
    requires s != []
  {
    if s[|s| - 1] == ',' then s[..|s| - 1] else s
  }

  lemma CommaTakenBack(start: string, text: string, empty: bool)
    requires start != [] && start[|start| - 1] == '{' && (empty ==> text == "")
    ensures WithoutComma(start + if empty then "" else text + ",") == start + text
  {
    if !empty { assert (start + (text + ","))[..|start| + |text|] == start + text; }
  }

  lemma AssocFour(a: string, b: string, c: string, d: string)
    ensures a + b + c + d == a + (b + c + d)
  {
  }

  lemma FieldText(before: string, name: string, value: string)
    ensures before + (name + ":") + value + "," == before + (name + ":" + value + ",")
  {
  }

  lemma ArrayText(before: string, name: string, text: string)
    ensures before + (name + ":") + "[" + text + "]" + "," == before + (name + ":" + ("[" + text + "]") + ",")
  {
  }

  lemma MapClosed(before: string, name: string, text: string)
    ensures before + (name + ":" + "{") + text + "}," == before + (name + ":" + ("{" + text + "}") + ",")
  {
  }

  lemma RequestClosed(table: seq<FieldDef>, command: string, version: int, fields: seq<Field>)
    requires forall i :: 0 <= i < |fields| ==> Known(table, fields[i])
    ensures "{" + (PrintName(command) + ":" + "{") + (PrintName("VERSION") + ":" + Decimal.Notation(version) + ",") + (PrintName("FIELDS") + ":" + "{")
            + PrintFields(table, fields) + "}}}\n" == PrintRequest(table, command, version, fields)
  {
    hide PrintName, PrintFields, Known;
    RequestText(PrintName(command), PrintName("VERSION"), Decimal.Notation(version), PrintName("FIELDS"), PrintFields(table, fields));
  }

  lemma RequestText(c: string, v: string, n: string, f: string, text: string)
    ensures "{" + (c + ":" + "{") + (v + ":" + n + ",") + (f + ":" + "{") + text + "}}}\n"
            == "{" + (c + ":" + "{" + (v + ":" + n + "," + f + ":" + "{" + text + "}") + "}") + "}" + "\n"
  {
    var body := v + ":" + n + "," + f + ":" + "{";
    assert (v + ":" + n + ",") + (f + ":" + "{") == body;
    assert "{" + (c + ":" + "{") + (v + ":" + n + ",") + (f + ":" + "{") == "{" + (c + ":" + "{") + body;
    var head := c + ":" + "{";
    assert "{" + head + body + text + "}}}\n" == "{" + (head + (body + text + "}") + "}") + "}" + "\n";
  }
}
