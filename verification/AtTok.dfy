/** The tokenizer for AT response lines. A cursor is the text still to be read, or
    nothing once a separator has not been found.  */
module AtTok {
  import opened Decimal

  datatype Cursor = Null | At(text: string)

  /** strsep with one separator: the token before it and the cursor after it. */
  function StrSep(c: Cursor, sep: char): (Cursor, Cursor) {
    match c
    case Null => (Null, Null)
    case At(s) =>
      var i := IndexOf(s, sep);
      if i < 0 then (c, Null) else (At(s[..i]), At(s[i + 1..]))
  }

  function IndexOf(s: string, sep: char, from: nat := 0): (i: int)
    requires from <= |s|
    decreases |s| - from
    ensures i == -1 ==> forall j :: from <= j < |s| ==> s[j] != sep
    ensures i != -1 ==> from <= i < |s| && s[i] == sep
    ensures forall j :: from <= j < i ==> s[j] != sep
  {
    if from == |s| then -1 else if s[from] == sep then from else IndexOf(s, sep, from + 1)
  }

  function SkipNextComma(c: Cursor): Cursor {
    match c
    case Null => Null
    case At(s) =>
      var i := IndexOf(s, ',');
      if i < 0 then At("") else At(s[i + 1..])
  }

  /** nextTok: a quoted string, or the text up to the next comma. */
  function NextStr(c: Cursor): (Cursor, Cursor) {
    match c
    case Null => (Null, Null)
    case At(s) =>
      var t := SkipSpace(s);
      if t != "" && t[0] == '"' then
        var (tok, rest) := StrSep(At(t[1..]), '"');
        (tok, SkipNextComma(rest))
      else StrSep(At(t), ',')
  }

  /** at_tok_start: skip the prefix up to the colon. */
  function Start(c: Cursor): Cursor {
    match c
    case Null => Null
    case At(s) =>
      var i := IndexOf(s, ':');
      if i < 0 then Null else At(s[i + 1..])
  }

  lemma {:induction false} FindSep(a: string, sep: char, b: string)
    requires sep !in a
    ensures IndexOf(a + [sep] + b, sep) == |a|
    ensures (a + [sep] + b)[..|a|] == a && (a + [sep] + b)[|a| + 1..] == b
  {
    var s := a + [sep] + b;
    var i := IndexOf(s, sep);
    assert s[|a|] == sep;
    assert forall j :: 0 <= j < |a| ==> s[j] == a[j] && a[j] in a;
  }

  /** A field that starts plainly and holds no comma is read whole. */
  lemma {:induction false} PlainField(field: string, rest: string)
    requires field != "" && !IsSpace(field[0]) && field[0] != '"' && ',' !in field
    ensures NextStr(At(field + "," + rest)) == (At(field), At(rest))
    ensures NextStr(At(field)) == (At(field), Null)
  {
    FindSep(field, ',', rest);
    var s := field + "," + rest;
    assert SkipSpace(s) == s && SkipSpace(field) == field;
    assert forall j :: 0 <= j < |field| ==> field[j] in field;
  }

  /** A quoted field is read without its quotes, and its comma is skipped. */
  lemma {:induction false} QuotedField(field: string, rest: string)
    requires '"' !in field
    ensures NextStr(At("\"" + field + "\"," + rest)) == (At(field), At(rest))
    ensures NextStr(At("\"" + field + "\"")) == (At(field), At(""))
  {
    FindSep(field, '"', "," + rest);
    FindSep("", ',', rest);
    FindSep(field, '"', "");
    var s := "\"" + field + "\"," + rest;
    assert s[1..] == field + ['"'] + ("," + rest);
    assert "" + [','] + rest == "," + rest;
    var t := "\"" + field + "\"";
    assert t[1..] == field + ['"'] + "";
  }
}
