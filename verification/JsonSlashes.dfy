/**
 Several strings that end in a backslash. Each of them makes the search for the end of an object take
 the inside of quotes for the outside or the other way round, so two of them cancel.
 */
module JsonSlashes {
  import opened Options
  import opened JsonStrings
  import opened JsonObjects
  import opened JsonMessages
  import opened JsonRoundTrip
  import opened JsonBackslash
  import Decimal

  // -------------------------------------------------------------------------
  // Texts without braces
  // -------------------------------------------------------------------------

  predicate BraceFree(t: string) {
    forall i :: 0 <= i < |t| ==> t[i] != '{' && t[i] != '}'
  }

  // Inside or outside quotes alike, the text leaves the depth alone and changes sides or not.
  ghost predicate Moves(t: string, flip: bool) {
    forall s: Scan :: s.depth >= 0 && s.prev != SLASH ==> MovesFrom(s, t, flip)
  }

  predicate MovesFrom(s: Scan, t: string, flip: bool) {
    StaysOpen(s, t) && After(s, t).depth == s.depth && After(s, t).quoted == (s.quoted != flip) && After(s, t).prev != SLASH
  }

  lemma MovesConcat(a: string, b: string, f: bool, g: bool)
    requires Moves(a, f) && Moves(b, g)
    ensures Moves(a + b, f != g)
  {
    forall s: Scan | s.depth >= 0 && s.prev != SLASH ensures MovesFrom(s, a + b, f != g) {
      assert MovesFrom(s, a, f);
      assert MovesFrom(After(s, a), b, g);
      AfterConcat(s, a, b);
    }
  }

  lemma {:induction false} PlainMovesFrom(s: Scan, t: string)
    requires AllPlain(t) && s.depth >= 0 && s.prev != SLASH
    ensures MovesFrom(s, t, false)
    decreases t
  {
    if t != [] { PlainMovesFrom(Next(s, t[0]), t[1..]); }
  }

  lemma PlainMoves(t: string)
    requires AllPlain(t)
    ensures Moves(t, false)
  {
    forall s: Scan | s.depth >= 0 && s.prev != SLASH ensures MovesFrom(s, t, false) { PlainMovesFrom(s, t); }
  }

  // A text whose quotes all have a backslash before them changes nothing.
  lemma {:induction false} ShieldedStays(s: Scan, t: string)
    requires Shielded(t, s.prev) && BraceFree(t) && s.depth >= 0
    ensures StaysOpen(s, t) && After(s, t) == Scan(s.depth, s.quoted, if t == [] then s.prev else t[|t| - 1])
    decreases t
  {
    if t != [] { ShieldedStays(Next(s, t[0]), t[1..]); }
  }

  lemma QuotedMoves(t: string)
    requires Shielded(t, QUOTE) && BraceFree(t)
    ensures Moves([QUOTE] + t + [QUOTE], EndsInSlash(t))
  {
    forall s: Scan | s.depth >= 0 && s.prev != SLASH ensures MovesFrom(s, [QUOTE] + t + [QUOTE], EndsInSlash(t)) {
      var s1 := Next(s, QUOTE);
      ShieldedStays(s1, t);
      OneChar(s, QUOTE);
      OneChar(After(s1, t), QUOTE);
      AfterConcat(s, [QUOTE], t);
      AfterConcat(s, [QUOTE] + t, [QUOTE]);
    }
  }

  lemma {:induction false} EscapeBraceFree(s: string)
    requires BraceFree(s)
    ensures BraceFree(Escape(s))
  {
    if s != [] { EscapeBraceFree(s[1..]); }
  }

  lemma StringMoves(s: string)
    requires BraceFree(s)
    ensures Moves(PrintString(s), EndsInSlash(s))
  {
    EscapeShielded(s, QUOTE);
    EscapeEnd(s);
    EscapeBraceFree(s);
    hide Escape;
    QuotedMoves(Escape(s));
  }

  lemma NameMoves(n: string)
    requires NameChars(n) && BraceFree(n)
    ensures Moves(PrintName(n), false)
  {
    NameShielded(n, QUOTE);
    QuotedMoves(n);
  }

  // -------------------------------------------------------------------------
  // Fields
  // -------------------------------------------------------------------------

  // Numbers, booleans, strings and arrays of strings, none missing and none with a brace.
  predicate SimpleValue(v: Value, ftype: FieldType) {
    match v
    case Num(_) => ftype == NumType
    case Bool(_) => ftype == BoolType
    case Str(s) => ftype == StringType && s.Some? && BraceFree(s.value)
    case Arr(items) => ftype == ArrayType && forall i :: 0 <= i < |items| ==> items[i].Some? && BraceFree(items[i].value)
    case Map(_) => false
  }

  predicate Simple(table: seq<FieldDef>, fields: seq<Field>) {
    && TableOk(table)
    && forall i :: 0 <= i < |fields| ==>
         fields[i].number < |table| && BraceFree(table[fields[i].number].name) && SimpleValue(fields[i].value, table[fields[i].number].ftype)
  }

  // The number of strings that end in a backslash.
  function ItemSlashes(items: seq<Option<string>>): nat {
    if items == [] then 0 else (if items[0].Some? && EndsInSlash(items[0].value) then 1 else 0) + ItemSlashes(items[1..])
  }

  function ValueSlashes(v: Value): nat {
    match v
    case Str(s) => ItemSlashes([s])
    case Arr(items) => ItemSlashes(items)
    case _ => 0
  }

  function Slashes(fields: seq<Field>): nat {
    if fields == [] then 0 else ValueSlashes(fields[0].value) + Slashes(fields[1..])
  }

  predicate Odd(n: nat) {
    n % 2 == 1
  }

  lemma OddSum(m: nat, n: nat)
    ensures (Odd(m) != Odd(n)) == Odd(m + n)
  {
  }

  lemma {:induction false} ItemsMove(items: seq<Option<string>>)
    requires SimpleValue(Arr(items), ArrayType)
    ensures AllItems(items) && Moves(PrintItems(items), Odd(ItemSlashes(items)))
    decreases |items|
  {
    hide Moves, PrintString, EndsInSlash, BraceFree;
    if items == [] {
      PlainMoves("");
    } else {
      var first, later := PrintString(items[0].value), items[1..];
      StringMoves(items[0].value);
      if |items| == 1 {
        assert later == [] && ItemSlashes(later) == 0;
      } else {
        ItemsMove(later);
        PlainMoves(",");
        MovesConcat(first, ",", EndsInSlash(items[0].value), false);
        MovesConcat(first + ",", PrintItems(later), EndsInSlash(items[0].value), Odd(ItemSlashes(later)));
        OddSum(if EndsInSlash(items[0].value) then 1 else 0, ItemSlashes(later));
      }
    }
  }

  lemma ArrayMoves(items: seq<Option<string>>)
    requires SimpleValue(Arr(items), ArrayType)
    ensures AllItems(items) && Moves("[" + PrintItems(items) + "]", Odd(ItemSlashes(items)))
  {
    hide Moves, PrintItems;
    ItemsMove(items);
    PlainMoves("[");
    PlainMoves("]");
    MovesConcat("[", PrintItems(items), false, Odd(ItemSlashes(items)));
    MovesConcat("[" + PrintItems(items), "]", Odd(ItemSlashes(items)), false);
  }

  lemma OneItem(s: Option<string>)
    requires s.Some?
    ensures Odd(ItemSlashes([s])) == EndsInSlash(s.value)
  {
    assert ItemSlashes([s]) == (if EndsInSlash(s.value) then 1 else 0) + ItemSlashes([s][1..]) && [s][1..] == [];
  }

  lemma ValueMoves(v: Value, ftype: FieldType)
    requires SimpleValue(v, ftype)
    ensures Writable(v) && Moves(PrintValue(v), Odd(ValueSlashes(v)))
  {
    hide Moves, PrintItems, PrintString;
    match v
    case Num(n) => NotationPlain(n); PlainMoves(PrintValue(v));
    case Bool(_) => PlainMoves(PrintValue(v));
    case Str(s) => StringMoves(s.value); OneItem(s);
    case Arr(items) => ArrayMoves(items);
  }

  lemma FieldMoves(table: seq<FieldDef>, f: Field)
    requires Simple(table, [f])
    ensures Known(table, f) && Moves(PrintField(table, f), Odd(ValueSlashes(f.value)))
  {
    assert [f][0] == f;
    var name := table[f.number].name;
    ValueMoves(f.value, table[f.number].ftype);
    NameMoves(name);
    PlainMoves(":");
    hide Moves, PrintName, PrintValue;
    MovesConcat(PrintName(name), ":", false, false);
    MovesConcat(PrintName(name) + ":", PrintValue(f.value), false, Odd(ValueSlashes(f.value)));
  }

  lemma SimpleFirst(table: seq<FieldDef>, fields: seq<Field>)
    requires Simple(table, fields) && fields != []
    ensures Simple(table, [fields[0]]) && Simple(table, fields[1..])
  {
  }

  lemma {:induction false} FieldsMove(table: seq<FieldDef>, fields: seq<Field>)
    requires Simple(table, fields)
    ensures (forall i :: 0 <= i < |fields| ==> Known(table, fields[i])) && Moves(PrintFields(table, fields), Odd(Slashes(fields)))
    decreases |fields|
  {
    hide Moves, PrintField, Known, Simple, ValueSlashes;
    if fields == [] {
      PlainMoves("");
    } else {
      var f, later := fields[0], fields[1..];
      SimpleFirst(table, fields);
      FieldMoves(table, f);
      FieldsMove(table, later);
      assert forall i :: 0 < i < |fields| ==> fields[i] == later[i - 1];
      if |fields| == 1 {
        assert later == [] && Slashes(later) == 0;
      } else {
        PlainMoves(",");
        MovesConcat(PrintField(table, f), ",", Odd(ValueSlashes(f.value)), false);
        MovesConcat(PrintField(table, f) + ",", PrintFields(table, later), Odd(ValueSlashes(f.value)), Odd(Slashes(later)));
        OddSum(ValueSlashes(f.value), Slashes(later));
      }
    }
  }

  // -------------------------------------------------------------------------
  // Reading the fields
  // -------------------------------------------------------------------------

  lemma GetSimple(v: Value, ftype: FieldType, rest: string)
    requires SimpleValue(v, ftype) && Follows(rest)
    ensures Writable(v) && GetValue(PrintValue(v) + rest, ftype) == Some((v, rest))
  {
    hide GetString, GetNum, GetBool, GetArray, PrintString, PrintItems;
    match v
    case Num(n) => GetNumOf(n, rest);
    case Bool(b) => GetBoolOf(b, rest);
    case Str(s) => GetStringOf(s.value, rest);
    case Arr(items) => GetArrayOf(items, rest);
  }

  lemma LoadOneSimple(table: seq<FieldDef>, f: Field, sep: string, tail: string)
    requires Simple(table, [f]) && (sep == "" || sep == ",") && Follows(tail)
    ensures Known(table, f) && LoadFields(table, sep + PrintField(table, f) + tail) == Prefixed(f, LoadFields(table, tail))
  {
    assert [f][0] == f;
    var name := table[f.number].name;
    GetSimple(f.value, table[f.number].ftype, tail);
    var rest := PrintValue(f.value) + tail;
    NamedText(sep, PrintName(name), PrintValue(f.value), tail);
    ValueStart(f.value, tail);
    GetNameOf(sep, name, rest);
    FieldNumberOf(table, f.number);
    hide GetName, GetValue, PrintName, PrintValue, FieldNumber, Upper, LoadFields, TableOk;
    LoadStep(table, sep + PrintField(table, f) + tail, name, rest, f, tail);
  }

  lemma {:induction false} LoadSimple(table: seq<FieldDef>, fields: seq<Field>, sep: string)
    requires Simple(table, fields) && (sep == "" || sep == ",")
    ensures (forall i :: 0 <= i < |fields| ==> Known(table, fields[i])) && LoadFields(table, sep + PrintFields(table, fields)) == Some(fields)
    decreases |fields|
  {
    FieldsMove(table, fields);
    hide GetName, PrintField, Known, LoadFields, Simple, Moves;
    if fields == [] {
      LoadNothing(table, sep);
      assert sep + "" == sep;
    } else {
      var f, more := fields[0], fields[1..];
      SimpleFirst(table, fields);
      CommaText(sep, PrintField(table, f), PrintFields(table, more));
      assert fields == [f] + more;
      if |fields| == 1 {
        LoadOneSimple(table, f, sep, "");
        LoadNothing(table, "");
      } else {
        LoadOneSimple(table, f, sep, "," + PrintFields(table, more));
        LoadSimple(table, more, ",");
      }
    }
  }

  // -------------------------------------------------------------------------
  // Requests
  // -------------------------------------------------------------------------

  lemma EvenLoads(table: seq<FieldDef>, command: string, version: int, fields: seq<Field>)
    requires CleanCommand(command) && Simple(table, fields) && !Odd(Slashes(fields))
    ensures (forall i :: 0 <= i < |fields| ==> Known(table, fields[i]))
            && LoadMessage(table, PrintRequest(table, command, version, fields)) == Request(Message(command, version, [fields]))
  {
    FieldsMove(table, fields);
    LoadSimple(table, fields, "");
    var inner, m := PrintFields(table, fields), Message(command, 0, []);
    assert "" + inner == inner;
    MovesIsNeutral(inner);
    hide Neutral, Moves, LoadFields, LoadParts, PrintFields, PrintBody, Simple, Known, LoadMessage, Slashes;
    LoadTwoParts(table, m, version, inner, fields);
    BodyNeutral(version, inner);
    assert m.(version := version, items := m.items + [fields]) == Message(command, version, [fields]);
    LoadEnvelope(table, command, PrintBody(version, inner), Message(command, version, [fields]));
  }

  lemma MovesIsNeutral(t: string)
    requires Moves(t, false)
    ensures Neutral(t)
  {
    forall s: Scan | s.depth >= 0 && !s.quoted && s.prev != SLASH ensures NeutralFrom(s, t) { assert MovesFrom(s, t, false); }
  }

  // Behind a text that changes sides, the closing braces are taken to be inside quotes.
  lemma NoEndBehind(a: string, b: string, inner: string)
    requires Neutral(a) && Neutral(b) && Moves(inner, true)
    ensures Close(Scan(0, false, '{'), a + ("{" + (b + ("{" + (inner + "}}}\n"))))).None?
  {
    hide Neutral, Moves, Close, Next, After;
    var s0 := Scan(0, false, '{');
    var last := inner + "}}}\n";
    PassNeutral(s0, a, "{" + (b + ("{" + last)));
    var s1 := After(s0, a);
    PassBrace(s1, b + ("{" + last));
    var s2 := Next(s1, '{');
    PassNeutral(s2, b, "{" + last);
    var s3 := After(s2, b);
    PassBrace(s3, last);
    LeftOpen(Next(s3, '{'), inner);
  }

  lemma LeftOpen(s: Scan, inner: string)
    requires Outside(s) && Moves(inner, true)
    ensures Close(s, inner + "}}}\n").None?
  {
    assert MovesFrom(s, inner, true);
    CloseBehind(s, inner, "}}}\n");
    NoQuotesShielded("}}}\n", After(s, inner).prev);
    NeverClosed(After(s, inner), "}}}\n");
  }

  lemma TextOf(table: seq<FieldDef>, command: string, version: int, fields: seq<Field>, a: string, b: string, inner: string)
    requires forall i :: 0 <= i < |fields| ==> Known(table, fields[i])
    requires a == PrintName(command) + ":" && inner == PrintFields(table, fields)
    requires b == PrintName("VERSION") + (":" + Decimal.Notation(version) + ",") + (PrintName("FIELDS") + ":")
    ensures PrintRequest(table, command, version, fields) == "{" + (a + ("{" + (b + ("{" + (inner + "}}}\n")))))
  {
    hide PrintName, PrintFields, Known;
    assert PrintBody(version, inner) == b + ("{" + inner + "}");
    Regroup(a, b, inner, "");
    assert inner + "" == inner && "" + "}}}\n" == "}}}\n";
    hide PrintBody;
    assert PrintName(command) + ":" + "{" + PrintBody(version, inner) + "}" == a + "{" + (b + ("{" + inner + "}")) + "}";
  }

  lemma OddFails(table: seq<FieldDef>, command: string, version: int, fields: seq<Field>)
    requires CleanCommand(command) && Simple(table, fields) && Odd(Slashes(fields))
    ensures (forall i :: 0 <= i < |fields| ==> Known(table, fields[i])) && LoadMessage(table, PrintRequest(table, command, version, fields)) == Bad
  {
    FieldsMove(table, fields);
    var a := PrintName(command) + ":";
    var b := PrintName("VERSION") + (":" + Decimal.Notation(version) + ",") + (PrintName("FIELDS") + ":");
    var inner := PrintFields(table, fields);
    PartsNeutral(command, version, command);
    hide Neutral, Moves, PrintName, Close, Known, Simple, PrintFields, PrintRequest, LoadMessage;
    TextOf(table, command, version, fields, a, b, inner);
    NoEndBehind(a, b, inner);
    NotAnObject(table, a + ("{" + (b + ("{" + (inner + "}}}\n")))));
  }

  lemma NotAnObject(table: seq<FieldDef>, inside: string)
    requires Close(Scan(0, false, '{'), inside).None?
    ensures LoadMessage(table, "{" + inside) == Bad
  {
    var t := "{" + inside;
    assert t[0] == '{' && t[1..] == inside;
    SkipNothing(t, BLANKS);
    hide SkipChars, Close;
  }

  // A request of numbers, booleans, strings and arrays of strings without braces is loaded if and only if
  // an even number of its strings end in a backslash; otherwise it is refused.
  lemma SimpleLoadsIff(table: seq<FieldDef>, command: string, version: int, fields: seq<Field>)
    requires CleanCommand(command) && Simple(table, fields)
    ensures (forall i :: 0 <= i < |fields| ==> Known(table, fields[i]))
            && LoadMessage(table, PrintRequest(table, command, version, fields))
               == if Slashes(fields) % 2 == 0 then Request(Message(command, version, [fields])) else Bad
  {
    if Odd(Slashes(fields)) { OddFails(table, command, version, fields); } else { EvenLoads(table, command, version, fields); }
  }
}
