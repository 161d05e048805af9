/**
 Messages: what the request writer prints and what the message loader reads, and that loading a printed
 request gives back its command, its version and its fields.
 */
module JsonMessages {
  import opened Options
  import opened JsonStrings
  import opened JsonObjects
  import Decimal

  datatype FieldType = NumType | BoolType | StringType | ArrayType | MapType

  // The table of field names; a field is known by its position in it.
  datatype FieldDef = FieldDef(name: string, ftype: FieldType)

  // A string may be missing: it is then printed as null.
  datatype Value =
    | Num(n: int)
    | Bool(b: bool)
    | Str(s: Option<string>)
    | Arr(items: seq<Option<string>>)
    | Map(pairs: seq<(string, Option<string>)>)

  datatype Field = Field(number: nat, value: Value)

  datatype Message = Message(command: string, version: int, items: seq<seq<Field>>)

  // -------------------------------------------------------------------------
  // Printing
  // -------------------------------------------------------------------------

  // A name goes out as it is, a string escaped.
  function PrintName(name: string): string {
    [QUOTE] + name + [QUOTE]
  }

  function PrintString(s: string): string {
    [QUOTE] + Escape(s) + [QUOTE]
  }

  // The strings of an array and the values of a map are never missing.
  predicate AllItems(items: seq<Option<string>>) {
    forall i :: 0 <= i < |items| ==> items[i].Some?
  }

  predicate AllValues(pairs: seq<(string, Option<string>)>) {
    forall i :: 0 <= i < |pairs| ==> pairs[i].1.Some?
  }

  predicate Writable(v: Value) {
    (v.Arr? ==> AllItems(v.items)) && (v.Map? ==> AllValues(v.pairs))
  }

  function PrintItems(items: seq<Option<string>>): string
    requires AllItems(items)
  {
    if items == [] then ""
    else if |items| == 1 then PrintString(items[0].value)
    else PrintString(items[0].value) + "," + PrintItems(items[1..])
  }

  function PrintPair(p: (string, Option<string>)): string
    requires p.1.Some?
  {
    PrintName(p.0) + ":" + PrintString(p.1.value)
  }

  function PrintPairs(pairs: seq<(string, Option<string>)>): string
    requires AllValues(pairs)
  {
    if pairs == [] then ""
    else if |pairs| == 1 then PrintPair(pairs[0])
    else PrintPair(pairs[0]) + "," + PrintPairs(pairs[1..])
  }

  function PrintValue(v: Value): string
    requires Writable(v)
  {
    match v
    case Num(n) => Decimal.Notation(n)
    case Bool(b) => if b then "true" else "false"
    case Str(s) => if s.Some? then PrintString(s.value) else "null"
    case Arr(items) => "[" + PrintItems(items) + "]"
    case Map(pairs) => "{" + PrintPairs(pairs) + "}"
  }

  predicate Known(table: seq<FieldDef>, f: Field) {
    f.number < |table| && Writable(f.value)
  }

  function PrintField(table: seq<FieldDef>, f: Field): string
    requires Known(table, f)
  {
    PrintName(table[f.number].name) + ":" + PrintValue(f.value)
  }

  function PrintFields(table: seq<FieldDef>, fields: seq<Field>): string
    requires forall i :: 0 <= i < |fields| ==> Known(table, fields[i])
  {
    if fields == [] then ""
    else if |fields| == 1 then PrintField(table, fields[0])
    else PrintField(table, fields[0]) + "," + PrintFields(table, fields[1..])
  }

  function PrintBody(version: int, fields: string): string {
    PrintName("VERSION") + ":" + Decimal.Notation(version) + "," + PrintName("FIELDS") + ":" + "{" + fields + "}"
  }

  function PrintRequest(table: seq<FieldDef>, command: string, version: int, fields: seq<Field>): string
    requires forall i :: 0 <= i < |fields| ==> Known(table, fields[i])
  {
    "{" + (PrintName(command) + ":" + "{" + PrintBody(version, PrintFields(table, fields)) + "}") + "}" + "\n"
  }

  // -------------------------------------------------------------------------
  // Reading
  // -------------------------------------------------------------------------

  predicate StartsWith(t: string, p: string) {
    |p| <= |t| && t[..|p|] == p
  }

  // A string, or null, which is recognised but not consumed.
  function GetString(t: string): (r: Option<(Option<string>, string)>)
    ensures r.Some? ==> |r.value.1| <= |t| && (r.value.0.Some? ==> |r.value.1| < |t|)
  {
    var t1 := SkipChars(t, BLANKS);
    if t1 != [] && t1[0] == QUOTE then
      var r := Unquote(t1[1..]);
      if r.None? then None else Some((Option.Some(r.value.0), r.value.1))
    else if StartsWith(t1, "null") then Some((None, t))
    else None
  }

  const BEFORE_NAME := " \t,]}"
  const AFTER_NAME := " \t:"

  // The next name, with the position behind its colon; none at the end of the text.
  function GetName(t: string): (r: Option<(string, string)>)
    ensures r.Some? ==> |r.value.1| < |t|
  {
    var r := GetString(SkipChars(t, BEFORE_NAME));
    if r.None? || r.value.0.None? then None else Some((r.value.0.value, SkipChars(r.value.1, AFTER_NAME)))
  }

  predicate EndsNumber(t: string) {
    t == [] || t[0] == ',' || t[0] == ']' || t[0] == '}'
  }

  function GetNum(t: string): (r: Option<(int, string)>)
    ensures r.Some? ==> |r.value.1| <= |t|
  {
    var t1 := SkipChars(t, BLANKS);
    var (n, v) := Decimal.Read(t1);
    if n <= |t1| && EndsNumber(t1[n..]) then Some((v, t1[n..])) else None
  }

  function GetBool(t: string): (r: Option<(bool, string)>)
    ensures r.Some? ==> |r.value.1| <= |t|
  {
    var t1 := SkipChars(t, BLANKS);
    if StartsWith(t1, "true") then Some((true, t1[4..]))
    else if StartsWith(t1, "false") then Some((false, t1[5..]))
    else None
  }

  function UpTo(t: string, stop: string): (r: string)
    ensures |r| <= |t|
  {
    if t == [] || t[0] in stop then t else UpTo(t[1..], stop)
  }

  // The strings of an array, behind its opening bracket. A null among them would be kept as missing;
  // arrays of strings are never printed with one.
  function GetItems(t: string): (r: Option<(seq<Option<string>>, string)>)
    ensures r.Some? ==> |r.value.1| <= |t|
    decreases |t|
  {
    var s := GetString(t);
    if s.None? then
      if t != [] && t[0] == ']' then Some(([], t[1..])) else None
    else
      var t1 := UpTo(s.value.1, ",]");
      if t1 == [] then None
      else if t1[0] == ']' then Some(([s.value.0], t1[1..]))
      else
        var rest := GetItems(t1[1..]);
        if rest.None? then None else Some(([s.value.0] + rest.value.0, rest.value.1))
  }

  function GetArray(t: string): (r: Option<(seq<Option<string>>, string)>)
    ensures r.Some? ==> |r.value.1| <= |t|
  {
    var t1 := SkipChars(t, BLANKS);
    if t1 == [] || t1[0] != '[' then None else GetItems(t1[1..])
  }

  // The pairs of a map, from the text inside its braces.
  function GetPairs(t: string): Option<seq<(string, Option<string>)>>
    decreases |t|
  {
    var name := GetName(t);
    if name.None? then Some([])
    else
      var value := GetString(name.value.1);
      if value.None? then None
      else
        var rest := GetPairs(value.value.1);
        if rest.None? then None else Some([(name.value.0, value.value.0)] + rest.value)
  }

  function GetMap(t: string): (r: Option<(seq<(string, Option<string>)>, string)>)
    ensures r.Some? ==> |r.value.1| <= |t|
  {
    var o := GetObject(t);
    if o.None? then None
    else
      var pairs := GetPairs(o.value.0);
      if pairs.None? then None else Some((pairs.value, o.value.1))
  }

  function Upper(s: string): (u: string)
    ensures |u| == |s|
  {
    if s == [] then [] else [if 'a' <= s[0] <= 'z' then s[0] - 'a' + 'A' else s[0]] + Upper(s[1..])
  }

  // The number of a field by its name.
  function FieldNumber(table: seq<FieldDef>, name: string): (n: nat)
    ensures n <= |table| && (n < |table| ==> table[n].name == name)
  {
    if table == [] || table[0].name == name then 0 else 1 + FieldNumber(table[1..], name)
  }

  function GetValue(t: string, ftype: FieldType): (r: Option<(Value, string)>)
    ensures r.Some? ==> |r.value.1| <= |t|
  {
    match ftype
    case NumType => var r := GetNum(t); if r.None? then None else Some((Num(r.value.0), r.value.1))
    case BoolType => var r := GetBool(t); if r.None? then None else Some((Bool(r.value.0), r.value.1))
    case StringType => var r := GetString(t); if r.None? then None else Some((Str(r.value.0), r.value.1))
    case ArrayType => var r := GetArray(t); if r.None? then None else Some((Arr(r.value.0), r.value.1))
    case MapType => var r := GetMap(t); if r.None? then None else Some((Map(r.value.0), r.value.1))
  }

  // loadFields: names and values until no name is left; an unknown name or a bad value is an error.
  function LoadFields(table: seq<FieldDef>, t: string): Option<seq<Field>>
    decreases |t|
  {
    var name := GetName(t);
    if name.None? then Some([])
    else
      var n := FieldNumber(table, Upper(name.value.0));
      if n == |table| then None
      else
        var v := GetValue(name.value.1, table[n].ftype);
        if v.None? then None
        else
          var rest := LoadFields(table, v.value.1);
          if rest.None? then None else Some([Field(n, v.value.0)] + rest.value)
  }

  // loadItemArray behind the opening bracket.
  function LoadItems(table: seq<FieldDef>, t: string): (r: Option<(seq<seq<Field>>, string)>)
    ensures r.Some? ==> |r.value.1| <= |t|
    decreases |t|
  {
    var o := GetObject(t);
    if o.None? then Some(([], if t == [] then [] else t[1..]))
    else
      var fields := LoadFields(table, o.value.0);
      if fields.None? then None
      else
        var t1 := UpTo(o.value.1, ",]");
        if t1 == [] then Some(([fields.value], []))
        else if t1[0] == ']' then Some(([fields.value], t1[1..]))
        else
          var rest := LoadItems(table, t1[1..]);
          if rest.None? then None else Some(([fields.value] + rest.value.0, rest.value.1))
  }

  // The parts of a command: its version, its fields, or an array of items; other names are passed over.
  function LoadParts(table: seq<FieldDef>, m: Message, t: string): Option<Message>
    decreases |t|
  {
    var name := GetName(t);
    if name.None? then Some(m)
    else
      var key, t1 := Upper(name.value.0), name.value.1;
      if key == "VERSION" then
        var v := GetNum(t1);
        if v.None? then None else LoadParts(table, m.(version := v.value.0), v.value.1)
      else if key == "DATA" then
        var t2 := SkipChars(t1, BLANKS);
        if t2 == [] || t2[0] != '[' then None
        else
          var items := LoadItems(table, t2[1..]);
          if items.None? then None else LoadParts(table, m.(items := m.items + items.value.0), items.value.1)
      else if key == "FIELDS" then
        var o := GetObject(t1);
        if o.None? then None
        else
          var fields := LoadFields(table, o.value.0);
          if fields.None? then None else LoadParts(table, m.(items := m.items + [fields.value]), o.value.1)
      else LoadParts(table, m, t1)
  }

  // What load_message makes of a text: nothing, a response or an error, or a command.
  datatype Loaded = Bad | Response | Request(message: Message)

  function LoadMessage(table: seq<FieldDef>, t: string): Loaded {
    var o := GetObject(t);
    if o.None? then Bad
    else
      var name := GetName(o.value.0);
      if name.None? then Bad
      else
        var command := Upper(name.value.0);
        if command == "ERROR" || command == "RESP" then Response
        else
          var parts := GetObject(name.value.1);
          if parts.None? then Bad
          else
            var m := LoadParts(table, Message(command, 0, []), parts.value.0);
            if m.None? then Bad else Request(m.value)
  }

  // -------------------------------------------------------------------------
  // What can be sent
  // -------------------------------------------------------------------------

  predicate NameChars(s: string) {
    forall i :: 0 <= i < |s| ==> s[i] != QUOTE && s[i] != SLASH
  }

  predicate CleanName(s: string) {
    NameChars(s) && Upper(s) == s
  }

  predicate TableOk(table: seq<FieldDef>) {
    && (forall i :: 0 <= i < |table| ==> CleanName(table[i].name))
    && (forall i, k :: 0 <= i < k < |table| ==> table[i].name != table[k].name)
  }

  // A value of its type whose strings do not end in a backslash and whose map keys, which are printed as
  // they are, hold no quote and no backslash.
  predicate CleanValue(v: Value, ftype: FieldType) {
    match v
    case Num(_) => ftype == NumType
    case Bool(_) => ftype == BoolType
    case Str(s) => ftype == StringType && (s.Some? ==> !EndsInSlash(s.value))
    case Arr(items) => ftype == ArrayType && forall i :: 0 <= i < |items| ==> items[i].Some? && !EndsInSlash(items[i].value)
    case Map(pairs) =>
      ftype == MapType && forall i :: 0 <= i < |pairs| ==> NameChars(pairs[i].0) && pairs[i].1.Some? && !EndsInSlash(pairs[i].1.value)
  }

  predicate CleanField(table: seq<FieldDef>, f: Field) {
    f.number < |table| && CleanValue(f.value, table[f.number].ftype)
  }

  // -------------------------------------------------------------------------
  // Reading what was printed
  // -------------------------------------------------------------------------

  lemma SkipNothing(t: string, skip: string)
    requires t == [] || t[0] !in skip
    ensures SkipChars(t, skip) == t
  {
  }

  lemma GetStringOf(s: string, rest: string)
    ensures GetString(PrintString(s) + rest) == Some((Option.Some(s), rest))
  {
    var t := PrintString(s) + rest;
    SkipNothing(t, BLANKS);
    assert t[0] == QUOTE && t[1..] == Escape(s) + [QUOTE] + rest;
    UnquoteUndoesEscape(s, rest);
    hide Unquote, Escape, SkipChars;
  }

  lemma {:induction false} UnquoteName(n: string, rest: string)
    requires NameChars(n)
    ensures Unquote(n + [QUOTE] + rest) == Some((n, rest))
  {
    var t := n + [QUOTE] + rest;
    if n == [] {
      assert t == [QUOTE] + rest;
    } else {
      assert t == [n[0]] + (n[1..] + [QUOTE] + rest);
      UnquoteName(n[1..], rest);
      UnquotePlain(n[0], n[1..] + [QUOTE] + rest);
      hide Unquote;
      assert n == [n[0]] + n[1..];
    }
  }

  // A name behind nothing or a comma, in front of a value.
  lemma GetNameOf(sep: string, n: string, rest: string)
    requires NameChars(n) && (sep == "" || sep == ",") && rest != [] && rest[0] !in AFTER_NAME
    ensures GetName(sep + PrintName(n) + ":" + rest) == Some((n, rest))
  {
    var t := PrintName(n) + ":" + rest;
    assert sep + PrintName(n) + ":" + rest == sep + t;
    assert t[0] == QUOTE && t[1..] == n + [QUOTE] + (":" + rest);
    SkipSep(sep, t);
    SkipNothing(t, BLANKS);
    UnquoteName(n, ":" + rest);
    assert GetString(t) == Some((Option.Some(n), ":" + rest));
    SkipColon(rest);
    hide GetString, SkipChars;
  }

  lemma SkipSep(sep: string, t: string)
    requires (sep == "" || sep == ",") && t != [] && t[0] == QUOTE
    ensures SkipChars(sep + t, BEFORE_NAME) == t
  {
    if sep == "" { assert sep + t == t; } else { assert (sep + t)[1..] == t && ',' in BEFORE_NAME; }
    SkipNothing(t, BEFORE_NAME);
  }

  lemma SkipColon(rest: string)
    requires rest != [] && rest[0] !in AFTER_NAME
    ensures SkipChars(":" + rest, AFTER_NAME) == rest
  {
    assert (":" + rest)[1..] == rest && ':' in AFTER_NAME;
    SkipNothing(rest, AFTER_NAME);
  }
}
