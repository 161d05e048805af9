/**
 Named responses: messages that carry an array of items, as a recon does. Loading a printed one gives
 back its name, its version and its items.
 */
module JsonResponses {
  import opened Options
  import opened JsonObjects
  import opened JsonMessages
  import opened JsonRoundTrip
  import Decimal

  // -------------------------------------------------------------------------
  // Printing
  // -------------------------------------------------------------------------

  predicate AllKnown(table: seq<FieldDef>, items: seq<seq<Field>>) {
    forall i :: 0 <= i < |items| ==> forall k :: 0 <= k < |items[i]| ==> Known(table, items[i][k])
  }

  function PrintObject(table: seq<FieldDef>, fields: seq<Field>): string
    requires forall k :: 0 <= k < |fields| ==> Known(table, fields[k])
  {
    "{" + PrintFields(table, fields) + "}"
  }

  function PrintObjects(table: seq<FieldDef>, items: seq<seq<Field>>): string
    requires AllKnown(table, items)
  {
    if items == [] then ""
    else if |items| == 1 then PrintObject(table, items[0])
    else PrintObject(table, items[0]) + "," + PrintObjects(table, items[1..])
  }

  function PrintData(version: int, objects: string): string {
    PrintName("VERSION") + ":" + Decimal.Notation(version) + "," + PrintName("DATA") + ":" + "[" + objects + "]"
  }

  function PrintResponse(table: seq<FieldDef>, name: string, version: int, items: seq<seq<Field>>): string
    requires AllKnown(table, items)
  {
    "{" + (PrintName(name) + ":" + "{" + PrintData(version, PrintObjects(table, items)) + "}") + "}" + "\n"
  }

  // -------------------------------------------------------------------------
  // Items
  // -------------------------------------------------------------------------

  predicate AllClean(table: seq<FieldDef>, items: seq<seq<Field>>) {
    TableOk(table) && forall i :: 0 <= i < |items| ==> Clean(table, items[i])
  }

  lemma AllCleanKnown(table: seq<FieldDef>, items: seq<seq<Field>>)
    requires AllClean(table, items)
    ensures AllKnown(table, items)
  {
    forall i | 0 <= i < |items| ensures forall k :: 0 <= k < |items[i]| ==> Known(table, items[i][k]) {
      CleanIsKnown(table, items[i]);
    }
  }

  // What is loaded of each item.
  function Loads(items: seq<seq<Field>>): seq<seq<Field>> {
    if items == [] then [] else [UpToMissing(items[0])] + Loads(items[1..])
  }

  lemma ObjectNeutral(table: seq<FieldDef>, fields: seq<Field>)
    requires Clean(table, fields)
    ensures (forall k :: 0 <= k < |fields| ==> Known(table, fields[k])) && Neutral(PrintObject(table, fields))
  {
    FieldsNeutral(table, fields);
    BracedIsNeutral(PrintFields(table, fields));
  }

  lemma {:induction false} ObjectsNeutral(table: seq<FieldDef>, items: seq<seq<Field>>)
    requires AllClean(table, items)
    ensures AllKnown(table, items) && Neutral(PrintObjects(table, items))
    decreases |items|
  {
    AllCleanKnown(table, items);
    hide Neutral, PrintObject, Known, Clean;
    if items == [] {
      PlainIsNeutral("");
    } else {
      ObjectNeutral(table, items[0]);
      if |items| > 1 {
        ObjectsNeutral(table, items[1..]);
        PlainIsNeutral(",");
        NeutralThree(PrintObject(table, items[0]), ",", PrintObjects(table, items[1..]));
      }
    }
  }

  // One object of the array, and what is left behind it.
  lemma ObjectStep(table: seq<FieldDef>, fields: seq<Field>, more: string)
    requires Clean(table, fields) && more != [] && (more[0] == ',' || more[0] == ']')
    ensures (forall k :: 0 <= k < |fields| ==> Known(table, fields[k]))
    ensures var r := LoadItems(table, PrintObject(table, fields) + more);
            if more[0] == ']' then r == Some(([UpToMissing(fields)], more[1..]))
            else var rest := LoadItems(table, more[1..]);
                 r == if rest.None? then None else Some(([UpToMissing(fields)] + rest.value.0, rest.value.1))
  {
    FieldsNeutral(table, fields);
    var inner := PrintFields(table, fields);
    LoadFieldsOf(table, fields, "");
    assert "" + inner == inner;
    hide Neutral, GetObject, LoadFields, PrintFields, UpToMissing, Clean, Known, UpTo;
    GetObjectOf(inner, more);
    UpToHere(more);
  }

  lemma NoObjectHere(table: seq<FieldDef>, rest: string)
    ensures LoadItems(table, "]" + rest) == Some(([], rest))
  {
    var t := "]" + rest;
    assert t[0] == ']' && t[1..] == rest;
    SkipNothing(t, BLANKS);
  }

  function PrefixedItems(fields: seq<Field>, r: Option<(seq<seq<Field>>, string)>): Option<(seq<seq<Field>>, string)> {
    if r.None? then None else Some(([fields] + r.value.0, r.value.1))
  }

  lemma LastObject(table: seq<FieldDef>, fields: seq<Field>, rest: string)
    requires Clean(table, fields)
    ensures forall k :: 0 <= k < |fields| ==> Known(table, fields[k])
    ensures LoadItems(table, PrintObject(table, fields) + "]" + rest) == Some(([UpToMissing(fields)], rest))
  {
    CleanIsKnown(table, fields);
    hide LoadItems, PrintObject, UpToMissing, Known, Clean;
    LastText(PrintObject(table, fields), rest);
    ObjectStep(table, fields, "]" + rest);
  }

  lemma NextObject(table: seq<FieldDef>, fields: seq<Field>, others: string, rest: string)
    requires Clean(table, fields)
    ensures forall k :: 0 <= k < |fields| ==> Known(table, fields[k])
    ensures LoadItems(table, PrintObject(table, fields) + "," + others + "]" + rest)
            == PrefixedItems(UpToMissing(fields), LoadItems(table, others + "]" + rest))
  {
    CleanIsKnown(table, fields);
    hide LoadItems, PrintObject, UpToMissing, Known, Clean;
    MoreText(PrintObject(table, fields), others, rest);
    ObjectStep(table, fields, "," + (others + "]" + rest));
  }

  lemma {:induction false} LoadItemsOf(table: seq<FieldDef>, items: seq<seq<Field>>, rest: string)
    requires AllClean(table, items)
    ensures AllKnown(table, items) && LoadItems(table, PrintObjects(table, items) + "]" + rest) == Some((Loads(items), rest))
    decreases |items|
  {
    AllCleanKnown(table, items);
    hide LoadItems, PrintObject, UpToMissing, Known, Clean;
    if items == [] {
      NoObjectHere(table, rest);
      assert "" + "]" == "]";
    } else if |items| == 1 {
      LastObject(table, items[0], rest);
      assert items[1..] == [] && Loads(items) == [UpToMissing(items[0])] + Loads(items[1..]) == [UpToMissing(items[0])];
    } else {
      NextObject(table, items[0], PrintObjects(table, items[1..]), rest);
      LoadItemsOf(table, items[1..], rest);
    }
  }

  lemma LastText(first: string, rest: string)
    ensures first + "]" + rest == first + ("]" + rest) && ("]" + rest)[1..] == rest
  {
  }

  lemma MoreText(first: string, others: string, rest: string)
    ensures first + "," + others + "]" + rest == first + ("," + (others + "]" + rest))
    ensures ("," + (others + "]" + rest))[1..] == others + "]" + rest
  {
  }

  // -------------------------------------------------------------------------
  // Responses
  // -------------------------------------------------------------------------

  lemma DataName()
    ensures CleanName("DATA") && Upper("DATA") == "DATA"
  {
    UpperSame("DATA");
    hide Upper;
  }

  lemma DataText(v: string, n: string, d: string, objects: string)
    ensures v + ":" + n + "," + d + ":" + "[" + objects + "]" == "" + v + ":" + (n + ("," + d + ":" + ("[" + objects + "]")))
  {
  }

  lemma DataStep(table: seq<FieldDef>, m: Message, t: string, rest: string, items: seq<seq<Field>>)
    requires GetName(t) == Some(("DATA", rest)) && rest != [] && rest[0] == '[' && LoadItems(table, rest[1..]) == Some((items, ""))
    ensures LoadParts(table, m, t) == Some(m.(items := m.items + items))
  {
    DataName();
    NoNameHere("");
    SkipNothing(rest, BLANKS);
    hide GetName, GetObject, Upper, LoadFields, LoadItems, GetNum, SkipChars;
    var m' := m.(items := m.items + items);
    assert LoadParts(table, m', "") == Some(m');
  }

  lemma LoadData(table: seq<FieldDef>, m: Message, version: int, objects: string, items: seq<seq<Field>>)
    requires LoadItems(table, objects + "]") == Some((items, ""))
    ensures LoadParts(table, m, PrintData(version, objects)) == Some(m.(version := version, items := m.items + items))
  {
    DataName();
    hide PrintName, GetName, LoadItems, LoadParts, Upper, NameChars;
    var data := "[" + objects + "]";
    var tail := "," + PrintName("DATA") + ":" + data;
    DataText(PrintName("VERSION"), Decimal.Notation(version), PrintName("DATA"), objects);
    VersionPart(table, m, version, tail);
    GetNameOf(",", "DATA", data);
    assert data[0] == '[' && data[1..] == objects + "]";
    DataStep(table, m.(version := version), tail, data, items);
  }

  lemma DataNeutral(version: int, objects: string)
    requires Neutral(objects)
    ensures Neutral(PrintData(version, objects))
  {
    hide Neutral, PrintName;
    VersionName();
    DataName();
    PrintNameNeutral("VERSION");
    PrintNameNeutral("DATA");
    NotationPlain(version);
    PlainIsNeutral(":" + Decimal.Notation(version) + ",");
    PlainIsNeutral(":[");
    PlainIsNeutral("]");
    NeutralThree(PrintName("VERSION"), ":" + Decimal.Notation(version) + ",", PrintName("DATA"));
    NeutralThree(":[", objects, "]");
    NeutralConcat(PrintName("VERSION") + (":" + Decimal.Notation(version) + ",") + PrintName("DATA"), ":[" + objects + "]");
    DataGroups(PrintName("VERSION"), Decimal.Notation(version), PrintName("DATA"), objects);
  }

  lemma DataGroups(v: string, n: string, d: string, objects: string)
    ensures v + ":" + n + "," + d + ":" + "[" + objects + "]" == (v + (":" + n + ",") + d) + (":[" + objects + "]")
  {
  }

  // A printed response loads as its name, its version and its items, each up to and with its first
  // missing string.
  lemma LoadOfResponse(table: seq<FieldDef>, name: string, version: int, items: seq<seq<Field>>)
    requires CleanCommand(name) && AllClean(table, items)
    ensures AllKnown(table, items) && LoadMessage(table, PrintResponse(table, name, version, items)) == Request(Message(name, version, Loads(items)))
  {
    ObjectsNeutral(table, items);
    LoadItemsOf(table, items, "");
    var objects := PrintObjects(table, items);
    hide Neutral, LoadParts, PrintObjects, Loads, PrintData, PrintName, AllClean, AllKnown, LoadMessage, LoadItems, CleanCommand;
    NothingBehind(objects);
    LoadNamed(table, name, version, objects, Loads(items));
  }

  lemma NothingBehind(objects: string)
    ensures objects + "]" + "" == objects + "]"
  {
  }

  lemma LoadNamed(table: seq<FieldDef>, name: string, version: int, objects: string, items: seq<seq<Field>>)
    requires CleanCommand(name) && Neutral(objects) && LoadItems(table, objects + "]") == Some((items, ""))
    ensures LoadMessage(table, "{" + (PrintName(name) + ":" + "{" + PrintData(version, objects) + "}") + "}" + "\n")
            == Request(Message(name, version, items))
  {
    var m := Message(name, 0, []);
    hide Neutral, LoadParts, PrintData, PrintName, LoadMessage, LoadItems, CleanCommand;
    LoadData(table, m, version, objects, items);
    DataNeutral(version, objects);
    assert [] + items == items;
    LoadEnvelope(table, name, PrintData(version, objects), Message(name, version, items));
  }

  lemma {:induction false} LoadsAll(items: seq<seq<Field>>)
    ensures Loads(items) == items
            <==> forall i :: 0 <= i < |items| ==> forall k :: 0 <= k < |items[i]| - 1 ==> !Missing(items[i][k].value)
  {
    if items != [] {
      UpToMissingIsAll(items[0]);
      LoadsAll(items[1..]);
      assert items == [items[0]] + items[1..];
      assert Loads(items)[0] == UpToMissing(items[0]) && Loads(items)[1..] == Loads(items[1..]);
      assert forall i :: 0 < i < |items| ==> items[i] == items[1..][i - 1];
    }
  }

  // The round trip: a response comes back whole if and only if no string of an item but its last is
  // missing.
  lemma ResponseRoundTripIff(table: seq<FieldDef>, name: string, version: int, items: seq<seq<Field>>)
    requires CleanCommand(name) && AllClean(table, items)
    ensures AllKnown(table, items)
            && (LoadMessage(table, PrintResponse(table, name, version, items)) == Request(Message(name, version, items))
                <==> forall i :: 0 <= i < |items| ==> forall k :: 0 <= k < |items[i]| - 1 ==> !Missing(items[i][k].value))
  {
    LoadOfResponse(table, name, version, items);
    LoadsAll(items);
    hide LoadMessage, PrintResponse, Loads, AllClean, AllKnown;
  }
}
