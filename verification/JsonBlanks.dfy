/**
 Texts that other clients write: blanks in front of names and values change nothing, and neither does the
 case of a name.
 */
module JsonBlanks {
  import opened Options
  import opened JsonStrings
  import opened JsonObjects
  import opened JsonMessages
  import Decimal

  predicate AllIn(b: string, chars: string) {
    forall i :: 0 <= i < |b| ==> b[i] in chars
  }

  lemma {:induction false} SkipOver(b: string, t: string, chars: string)
    requires AllIn(b, chars)
    ensures SkipChars(b + t, chars) == SkipChars(t, chars)
  {
    if b == [] {
      assert b + t == t;
    } else {
      assert (b + t)[0] == b[0] && (b + t)[1..] == b[1..] + t;
      SkipOver(b[1..], t, chars);
    }
  }

  // Spaces and tabs in front of a value are passed over, whatever the value is. A missing string is told
  // apart from others and not consumed, with or without them.
  lemma BlanksBeforeValue(b: string, t: string, ftype: FieldType)
    requires forall i :: 0 <= i < |b| ==> b[i] == ' ' || b[i] == '\t'
    ensures GetObject(b + t) == GetObject(t)
    ensures var r, r' := GetValue(t, ftype), GetValue(b + t, ftype);
            if r.Some? && r.value.0 == Str(None) then r' == Some((Str(None), b + t)) else r' == r
  {
    hide SkipChars, Close, GetItems, Unquote, GetPairs, StartsWith, Decimal.Read;
    SkipOver(b, t, BLANKS);
    assert GetObject(b + t) == GetObject(t);
    hide GetObject;
  }

  // Blanks, commas and closing brackets in front of a name are passed over.
  lemma BlanksBeforeName(b: string, t: string)
    requires forall i :: 0 <= i < |b| ==> b[i] in {' ', '\t', ',', ']', '}'}
    ensures GetName(b + t) == GetName(t)
  {
    SkipOver(b, t, BEFORE_NAME);
    hide SkipChars, GetString;
  }

  // The same letters, some of them in lower case.
  predicate SomeLower(name': string, name: string) {
    |name'| == |name| &&
    forall i :: 0 <= i < |name| ==> name'[i] == name[i] || ('a' <= name'[i] <= 'z' && name[i] == name'[i] - 'a' + 'A')
  }

  lemma {:induction false} SameUpper(name': string, name: string)
    requires SomeLower(name', name)
    ensures Upper(name') == Upper(name)
  {
    if name != [] { SameUpper(name'[1..], name[1..]); }
  }

  // Blanks and the colon between a name and its value are passed over, and names in lower case are known too.
  lemma NameInAnyCase(table: seq<FieldDef>, name: string, name': string, b: string, t: string)
    requires NameChars(name) && NameChars(name') && SomeLower(name', name)
    requires forall i :: 0 <= i < |b| ==> b[i] in {' ', '\t', ':'}
    ensures LoadFields(table, PrintName(name') + b + t) == LoadFields(table, PrintName(name) + t)
  {
    SameUpper(name', name);
    hide GetName, GetValue, PrintName, SkipChars, Upper;
    NameRead(name', b, t);
    NameRead(name, "", t);
    assert PrintName(name) + "" + t == PrintName(name) + t;
  }

  lemma NameRead(name: string, b: string, t: string)
    requires NameChars(name) && forall i :: 0 <= i < |b| ==> b[i] in {' ', '\t', ':'}
    ensures GetName(PrintName(name) + b + t) == Some((name, SkipChars(t, AFTER_NAME)))
  {
    var text := PrintName(name) + b + t;
    assert text[0] == QUOTE && text[1..] == name + [QUOTE] + (b + t);
    SkipNothing(text, BEFORE_NAME);
    SkipNothing(text, BLANKS);
    UnquoteName(name, b + t);
    hide SkipChars, Unquote;
    assert GetString(text) == Some((Option.Some(name), b + t));
    hide GetString;
    SkipOver(b, t, AFTER_NAME);
  }
}
