/** Reading JSON text as section 2 to 7 of RFC 8259 define it, and that reading undoes printing. */
module JsonReader {
  import opened Models
  import opened Text
  import opened JsonText

  predicate IsBlank(c: char) { c == ' ' || c == '\n' || c == '\r' || c == '\t' }

  function Skip(t: string): (r: string)
    ensures |r| <= |t|
    ensures r == "" || !IsBlank(r[0])
  {
    if t != "" && IsBlank(t[0]) then Skip(t[1..]) else t
  }

  // --- strings --------------------------------------------------------------------------------------------------

  function HexValue(c: char): Option<nat> {
    if '0' <= c <= '9' then Some(c as int - '0' as int)
    else if 'a' <= c <= 'f' then Some(c as int - 'a' as int + 10)
    else if 'A' <= c <= 'F' then Some(c as int - 'A' as int + 10)
    else None
  }

  /** Four hexadecimal digits. */
  function ReadUnit(t: string): (r: Option<nat>)
    ensures r.Some? ==> |t| >= 4
  {
    if |t| < 4 then None
    else
      var a, b, c, d := HexValue(t[0]), HexValue(t[1]), HexValue(t[2]), HexValue(t[3]);
      if a.None? || b.None? || c.None? || d.None? then None
      else Some(((a.value * 16 + b.value) * 16 + c.value) * 16 + d.value)
  }

  predicate IsChar(n: int) { 0 <= n < 0xD800 || 0xE000 <= n < 0x11_0000 }

  /** What stands after `\u`: one unit, or a pair of surrogates. */
  function ReadEscape(t: string): (r: Option<(char, string)>)
    ensures r.Some? ==> |r.value.1| < |t|
  {
    var n := ReadUnit(t);
    if n.None? then None
    else if IsChar(n.value) then Some((n.value as char, t[4..]))
    else if !(0xD800 <= n.value < 0xDC00) || |t| < 6 || t[4] != '\\' || t[5] != 'u' then None
    else
      var m := ReadUnit(t[6..]);
      if m.None? || !(0xDC00 <= m.value < 0xE000) then None
      else
        var full := 0x1_0000 + (n.value - 0xD800) * 0x400 + (m.value - 0xDC00);
        if IsChar(full) then Some((full as char, t[10..])) else None
  }

  /** One character of a string, escaped or as it is. */
  function ReadChar(t: string): (r: Option<(char, string)>)
    ensures r.Some? ==> |r.value.1| < |t|
  {
    if t == "" || t[0] == '"' || t[0] < ' ' then None
    else if t[0] != '\\' then Some((t[0], t[1..]))
    else if |t| < 2 then None
    else
      match t[1]
      case '"' => Some(('"', t[2..]))
      case '\\' => Some(('\\', t[2..]))
      case '/' => Some(('/', t[2..]))
      case 'b' => Some(('\U{08}', t[2..]))
      case 'f' => Some(('\U{0C}', t[2..]))
      case 'n' => Some(('\n', t[2..]))
      case 'r' => Some(('\r', t[2..]))
      case 't' => Some(('\t', t[2..]))
      case 'u' => ReadEscape(t[2..])
      case _ => None
  }

  /** The characters up to the closing quote, and what follows it. */
  function ReadString(t: string): (r: Option<(string, string)>)
    ensures r.Some? ==> |r.value.1| < |t|
    decreases |t|
  {
    if t == "" then None
    else if t[0] == '"' then Some(("", t[1..]))
    else
      var c := ReadChar(t);
      if c.None? then None
      else
        var rest := ReadString(c.value.1);
        if rest.None? then None else Some(([c.value.0] + rest.value.0, rest.value.1))
  }

  // --- values ---------------------------------------------------------------------------------------------------

  /** The digits a text starts with. */
  function Digits(t: string): (d: string)
    ensures IsDigits(d) && |d| <= |t| && t[..|d|] == d
    ensures |d| < |t| ==> !('0' <= t[|d|] <= '9')
  {
    if t != "" && '0' <= t[0] <= '9' then
      var d := Digits(t[1..]);
      assert t[..|d| + 1] == [t[0]] + t[1..][..|d|];
      [t[0]] + d
    else ""
  }

  /** An integer; a zero may only stand alone. */
  function ReadInt(t: string): (r: Option<(Json, string)>)
    ensures r.Some? ==> |r.value.1| < |t|
  {
    var minus := t != "" && t[0] == '-';
    var u := if minus then t[1..] else t;
    var d := Digits(u);
    if d == "" || (d[0] == '0' && |d| > 1) then None
    else Some((Int(if minus then 0 - NatValue(d) else NatValue(d)), u[|d|..]))
  }

  predicate Starts(t: string, word: string) { |word| <= |t| && t[..|word|] == word }

  function ReadValue(text: string): (r: Option<(Json, string)>)
    ensures r.Some? ==> |r.value.1| < |text|
    decreases |text|, 1
  {
    var t := Skip(text);
    if t == "" then None
    else if t[0] == '"' then
      var s := ReadString(t[1..]);
      if s.None? then None else Some((Str(s.value.0), s.value.1))
    else if t[0] == '[' then
      var xs := ReadItems(t[1..], true);
      if xs.None? then None else Some((Arr(xs.value.0), xs.value.1))
    else if t[0] == '{' then
      var fs := ReadFields(t[1..], true);
      if fs.None? then None else Some((Obj(fs.value.0), fs.value.1))
    else if Starts(t, "null") then Some((Null, t[4..]))
    else if Starts(t, "true") then Some((Bool(true), t[4..]))
    else if Starts(t, "false") then Some((Bool(false), t[5..]))
    else ReadInt(t)
  }

  /** The rest of an array, after its bracket or an item. */
  function ReadItems(text: string, first: bool): (r: Option<(seq<Json>, string)>)
    ensures r.Some? ==> |r.value.1| < |text|
    decreases |text|, 2
  {
    var t := Skip(text);
    if t == "" then None
    else if t[0] == ']' then Some(([], t[1..]))
    else if !first && t[0] != ',' then None
    else
      var x := ReadValue(if first then t else t[1..]);
      if x.None? then None
      else
        var xs := ReadItems(x.value.1, false);
        if xs.None? then None else Some(([x.value.0] + xs.value.0, xs.value.1))
  }

  /** The rest of an object, after its brace or a field; of fields with one name the last counts. */
  function ReadFields(text: string, first: bool): (r: Option<(map<string, Json>, string)>)
    ensures r.Some? ==> |r.value.1| < |text|
    decreases |text|, 2
  {
    var t := Skip(text);
    if t == "" then None
    else if t[0] == '}' then Some((map[], t[1..]))
    else if !first && t[0] != ',' then None
    else
      var u := Skip(if first then t else t[1..]);
      if u == "" || u[0] != '"' then None
      else
        var k := ReadString(u[1..]);
        if k.None? then None
        else
          var colon := Skip(k.value.1);
          if colon == "" || colon[0] != ':' then None
          else
            var x := ReadValue(colon[1..]);
            if x.None? then None
            else
              var fs := ReadFields(x.value.1, false);
              if fs.None? then None else Some((map[k.value.0 := x.value.0] + fs.value.0, fs.value.1))
  }

  /** A whole document: one value, and nothing but blanks around it. */
  function Parse(text: string): Option<Json> {
    var r := ReadValue(text);
    if r.Some? && Skip(r.value.1) == "" then Some(r.value.0) else None
  }

  // --- reading undoes printing ----------------------------------------------------------------------------------

  lemma HexReadsBack(n: nat)
    requires n < 16
    ensures HexValue(HexDigit(n)) == Some(n)
  {
  }

  lemma UnitReadsBack(n: nat, rest: string)
    requires n < 0x10000
    ensures ReadUnit(Hex4(n) + rest) == Some(n) && (Hex4(n) + rest)[4..] == rest
  {
    hide HexDigit, HexValue;
    HexReadsBack(n / 16 / 16 / 16);
    HexReadsBack(n / 16 / 16 % 16);
    HexReadsBack(n / 16 % 16);
    HexReadsBack(n % 16);
    var t := Hex4(n) + rest;
    assert t[0] == Hex4(n)[0] && t[1] == Hex4(n)[1] && t[2] == Hex4(n)[2] && t[3] == Hex4(n)[3];
  }

  lemma PairReadsBack(n: nat)
    requires 0x10000 <= n < 0x11_0000
    ensures 0xD800 <= Lead(n) < 0xDC00 && 0xDC00 <= Trail(n) < 0xE000
    ensures 0x10000 + (Lead(n) - 0xD800) * 0x400 + (Trail(n) - 0xDC00) == n
  {
  }

  lemma EscapeReadsBack(c: char, rest: string)
    ensures var t := UnicodeEscape(c) + rest; |t| >= 2 && t[0] == '\\' && t[1] == 'u' && ReadEscape(t[2..]) == Some((c, rest))
  {
    hide Hex4, ReadUnit;
    var n, t := c as int, UnicodeEscape(c) + rest;
    if n < 0x10000 {
      assert t == "\\u" + (Hex4(n) + rest);
      assert t[2..] == Hex4(n) + rest;
      UnitReadsBack(n, rest);
    } else {
      PairReadsBack(n);
      var tail := "\\u" + (Hex4(Trail(n)) + rest);
      assert t == "\\u" + (Hex4(Lead(n)) + tail);
      assert t[2..] == Hex4(Lead(n)) + tail;
      UnitReadsBack(Lead(n), tail);
      UnitReadsBack(Trail(n), rest);
      assert t[2..][4..] == tail && t[2..][6..] == tail[2..] && tail[2..] == Hex4(Trail(n)) + rest;
      assert t[2..][4] == tail[0] && t[2..][5] == tail[1];
      assert t[2..][10..] == (Hex4(Trail(n)) + rest)[4..];
    }
  }

  /** Every escape is read as the character it stands for. */
  lemma CharReadsBack(c: char, style: Style, rest: string)
    ensures Escaped(c, style) != "" && Escaped(c, style)[0] != '"'
    ensures ReadChar(Escaped(c, style) + rest) == Some((c, rest))
  {
    hide UnicodeEscape, ReadEscape;
    var t := Escaped(c, style) + rest;
    EscapeReadsBack(c, rest);
    if Escaped(c, style) == UnicodeEscape(c) {
      assert UnicodeEscape(c) != "" by { NotEmpty(c); }
      assert t[0] == '\\' && t[1] == 'u';
      assert Escaped(c, style)[0] == t[0];
    } else if |Escaped(c, style)| == 2 {
      assert t[0] == '\\' && t[1] == Escaped(c, style)[1] && t[2..] == rest;
    } else {
      assert t[0] == c && t[1..] == rest;
    }
  }

  lemma NotEmpty(c: char)
    ensures UnicodeEscape(c) != ""
  {
  }

  lemma {:induction false} StringReadsBack(s: string, style: Style, rest: string)
    ensures ReadString(Body(s, style) + rest) == Some((s, rest))
    decreases |s|
  {
    hide Escaped, ReadChar;
    var t := Body(s, style) + rest;
    if s == "" {
      assert t == "\"" + rest && t[1..] == rest;
    } else {
      CharReadsBack(s[0], style, Body(s[1..], style) + rest);
      assert t == Escaped(s[0], style) + (Body(s[1..], style) + rest);
      assert t[0] == Escaped(s[0], style)[0];
      StringReadsBack(s[1..], style, rest);
      assert s == [s[0]] + s[1..];
    }
  }

  lemma MoreDigits(c: char, t: string)
    requires '0' <= c <= '9'
    ensures Digits([c] + t) == [c] + Digits(t)
  {
    assert ([c] + t)[1..] == t;
  }

  lemma {:induction false} DigitsAre(d: string, rest: string)
    requires IsDigits(d) && (rest == "" || !('0' <= rest[0] <= '9'))
    ensures Digits(d + rest) == d && (d + rest)[|d|..] == rest
  {
    hide Digits;
    if d == "" {
      assert d + rest == rest;
      NoDigits(rest);
    } else {
      DigitsAre(d[1..], rest);
      MoreDigits(d[0], d[1..] + rest);
      assert d + rest == [d[0]] + (d[1..] + rest) && d == [d[0]] + d[1..];
    }
  }

  lemma NoDigits(t: string)
    requires t == "" || !('0' <= t[0] <= '9')
    ensures Digits(t) == ""
  {
  }

  lemma {:induction false} NumeralStarts(n: nat)
    ensures NatText(n) != "" && (NatText(n)[0] == '0' ==> n == 0 && |NatText(n)| == 1)
    decreases n
  {
    if n >= 10 {
      NumeralStarts(n / 10);
    }
  }

  lemma UnsignedReadsBack(m: nat, rest: string)
    requires Ends(rest)
    ensures var d := Digits(NatText(m) + rest);
            d == NatText(m) && IsDigits(d) && d != "" && (d[0] == '0' ==> |d| == 1) && NatValue(d) == m
    ensures (NatText(m) + rest)[|NatText(m)|..] == rest
  {
    hide NatText, NatValue;
    NatTextReadsBack(m);
    NumeralStarts(m);
    DigitsAre(NatText(m), rest);
  }

  lemma IntReadsBack(n: int, rest: string)
    requires Ends(rest)
    ensures ReadInt(IntText(n) + rest) == Some((Int(n), rest))
  {
    hide NatText, NatValue, Digits, Ends;
    var m: nat := if n < 0 then -n else n;
    var t, u := IntText(n) + rest, NatText(m) + rest;
    UnsignedReadsBack(m, rest);
    assert u[0] == NatText(m)[0];
    if n < 0 {
      assert t == "-" + u && t[1..] == u;
    } else {
      assert t == u && t[0] != '-';
    }
  }

  lemma SkipsNothing(t: string)
    requires t != "" && !IsBlank(t[0])
    ensures Skip(t) == t
  {
  }

  /** What a printed value is followed by, or a separator, does not start with a blank. */
  lemma EndsAreNoBlanks(rest: string)
    requires Ends(rest)
    ensures rest == "" || !IsBlank(rest[0])
  {
  }

  lemma WordIsRead(word: string, v: Json, rest: string)
    requires (word == "null" && v == Null) || (word == "true" && v == Bool(true)) || (word == "false" && v == Bool(false))
    ensures ReadValue(word + rest) == Some((v, rest))
  {
    hide ReadInt, ReadItems, ReadFields, ReadString, Skip;
    var t := word + rest;
    SkipsNothing(t);
    assert t[..|word|] == word && t[|word|..] == rest;
    if word != "null" {
      assert t[..4][0] == word[0];
    }
    if word == "false" {
      assert t[0] == 'f';
    }
  }

  lemma NumberIsRead(n: int, rest: string)
    requires Ends(rest)
    ensures ReadValue(IntText(n) + rest) == Some((Int(n), rest))
  {
    hide ReadInt, ReadItems, ReadFields, ReadString, Skip, Ends, IntText;
    var t := IntText(n) + rest;
    PrintStarts(Int(n), Compact);
    assert t[0] == IntText(n)[0];
    SkipsNothing(t);
    IntReadsBack(n, rest);
  }

  /** What follows a bracket, a brace or a quote decides the value. */
  lemma OpenerIsRead(t: string)
    ensures ReadValue("\"" + t) == var s := ReadString(t); if s.None? then None else Some((Str(s.value.0), s.value.1))
    ensures ReadValue("[" + t) == var xs := ReadItems(t, true); if xs.None? then None else Some((Arr(xs.value.0), xs.value.1))
    ensures ReadValue("{" + t) == var fs := ReadFields(t, true); if fs.None? then None else Some((Obj(fs.value.0), fs.value.1))
  {
    hide ReadInt, ReadItems, ReadFields, ReadString, Skip;
    SkipsNothing("\"" + t);
    SkipsNothing("[" + t);
    SkipsNothing("{" + t);
    assert ("\"" + t)[1..] == t && ("[" + t)[1..] == t && ("{" + t)[1..] == t;
  }

  /** Reading what was printed gives the value back and stops where it ended, in every style. */
  lemma {:induction false} ValueReadsBack(v: Json, style: Style, rest: string)
    requires Ends(rest)
    ensures ReadValue(Print(v, style) + rest) == Some((v, rest))
    decreases v, 1
  {
    hide ReadValue, ReadString, ReadItems, ReadFields, PrintItems, PrintFields, Body, IntText, Ends;
    match v {
      case Null => WordIsRead("null", v, rest);
      case Bool(b) => WordIsRead(if b then "true" else "false", v, rest);
      case Int(n) => NumberIsRead(n, rest);
      case Str(s) =>
        assert Print(v, style) + rest == "\"" + (Body(s, style) + rest);
        StringReadsBack(s, style, rest);
        OpenerIsRead(Body(s, style) + rest);
      case Arr(items) =>
        var t := PrintItems(items, true, style) + rest;
        assert Print(v, style) + rest == "[" + t;
        ItemsReadBack(items, true, style, rest);
        OpenerIsRead(t);
      case Obj(fields) =>
        var keys := SortedKeys(fields.Keys);
        var t := PrintFields(v, keys, true, style) + rest;
        assert Print(v, style) + rest == "{" + t;
        FieldsReadBack(v, keys, true, style, rest);
        OpenerIsRead(t);
        AllSelected(v);
    }
  }

  lemma AllSelected(v: Json)
    requires v.Obj?
    ensures Selected(v, SortedKeys(v.fields.Keys)) == v.fields
  {
    hide SortedKeys;
    var r := Selected(v, SortedKeys(v.fields.Keys));
    assert forall k :: k in r <==> k in v.fields;
  }

  /** A blank before a value, after a comma or a colon, is passed over. */
  lemma BlankIsSkipped(t: string)
    ensures Skip(" " + t) == Skip(t) && ReadValue(" " + t) == ReadValue(t)
  {
    assert (" " + t)[1..] == t;
  }

  /** After the separator, what follows it is read. */
  lemma SeparatorIsRead(x: string, first: bool, style: Style)
    requires x != "" && !IsBlank(x[0])
    ensures var t := Sep(first, style) + x;
            t != "" && !IsBlank(t[0]) && (!first ==> t[0] == ',') && (first ==> t == x) &&
            Skip(if first then t else t[1..]) == x && ReadValue(if first then t else t[1..]) == ReadValue(x)
  {
    var t := Sep(first, style) + x;
    SkipsNothing(x);
    BlankIsSkipped(x);
    assert first ==> t == x;
    assert !first ==> t[1..] == (if style == Spaced then " " else "") + x;
    assert "" + x == x;
  }

  lemma {:induction false} ItemsReadBack(items: seq<Json>, first: bool, style: Style, rest: string)
    ensures ReadItems(PrintItems(items, first, style) + rest, first) == Some((items, rest))
    decreases items, 0
  {
    hide Print, PrintItems, ReadValue, Sep, Skip;
    var t := PrintItems(items, first, style) + rest;
    ItemsFront(items, first, rest, style);
    if items == [] {
      SkipsNothing(t);
      assert t[1..] == rest;
    } else {
      var tail := PrintItems(items[1..], false, style) + rest;
      var x := Print(items[0], style) + tail;
      PrintStarts(items[0], style);
      assert x[0] == Print(items[0], style)[0];
      SeparatorIsRead(x, first, style);
      SkipsNothing(t);
      ValueReadsBack(items[0], style, tail);
      ItemsReadBack(items[1..], false, style, rest);
      assert items == [items[0]] + items[1..];
    }
  }

  /** The fields a list of keys selects. */
  function Selected(v: Json, keys: seq<string>): map<string, Json>
    requires v.Obj?
  {
    map k | k in keys && k in v.fields :: v.fields[k]
  }

  lemma {:induction false} FieldsReadBack(v: Json, keys: seq<string>, first: bool, style: Style, rest: string)
    requires v.Obj? && forall k :: k in keys ==> k in v.fields
    requires forall i, j :: 0 <= i < j < |keys| ==> keys[i] != keys[j]
    ensures ReadFields(PrintFields(v, keys, first, style) + rest, first) == Some((Selected(v, keys), rest))
    decreases v, 0, |keys|
  {
    hide Print, PrintFields, ReadValue, ReadString, ReadFields, Sep, Colon, Skip, Body, Ends, Selected;
    var t := PrintFields(v, keys, first, style) + rest;
    FieldsFront(v, keys, first, rest, style);
    if keys == [] {
      BraceIsRead(rest, first);
      assert Selected(v, keys) == map[] by { NoneSelected(v); }
    } else {
      var tail := PrintFields(v, keys[1..], false, style) + rest;
      var value := Print(v.fields[keys[0]], style) + tail;
      StringReadsBack(keys[0], style, Colon(style) + value);
      ValueReadsBack(v.fields[keys[0]], style, tail);
      FieldsReadBack(v, keys[1..], false, style, rest);
      FieldIsRead(keys[0], Body(keys[0], style), value, first, style);
      assert Quoted(keys[0], style) + (Colon(style) + value) == "\"" + (Body(keys[0], style) + (Colon(style) + value));
      OneMoreSelected(v, keys);
    }
  }

  lemma BraceIsRead(rest: string, first: bool)
    ensures ReadFields("}" + rest, first) == Some((map[], rest))
  {
    hide Skip;
    SkipsNothing("}" + rest);
    assert ("}" + rest)[1..] == rest;
  }

  /** One field: its separator, its name up to the closing quote, the colon, and its value. */
  lemma FieldIsRead(k: string, body: string, value: string, first: bool, style: Style)
    requires ReadString(body + (Colon(style) + value)) == Some((k, Colon(style) + value))
    ensures ReadFields(Sep(first, style) + ("\"" + (body + (Colon(style) + value))), first) ==
            var x := ReadValue(value);
            if x.None? then None
            else
              var fs := ReadFields(x.value.1, false);
              if fs.None? then None else Some((map[k := x.value.0] + fs.value.0, fs.value.1))
  {
    hide ReadValue, ReadString, Sep, Colon, Skip;
    var inner := body + (Colon(style) + value);
    var x := "\"" + inner;
    assert x[0] == '"' && x[1..] == inner;
    var t := Sep(first, style) + x;
    SeparatorIsRead(x, first, style);
    SkipsNothing(t);
    ColonIsRead(value, style);
    assert first ==> t[0] == '"';
  }

  lemma NoneSelected(v: Json)
    requires v.Obj?
    ensures Selected(v, []) == map[]
  {
  }

  lemma OneMoreSelected(v: Json, keys: seq<string>)
    requires v.Obj? && keys != [] && keys[0] in v.fields && keys[0] !in keys[1..]
    ensures map[keys[0] := v.fields[keys[0]]] + Selected(v, keys[1..]) == Selected(v, keys)
  {
    assert keys == [keys[0]] + keys[1..];
  }

  lemma ColonIsRead(x: string, style: Style)
    ensures var t := Colon(style) + x; Skip(t) == t && t[0] == ':' && ReadValue(t[1..]) == ReadValue(x)
  {
    var t := Colon(style) + x;
    BlankIsSkipped(x);
    SkipsNothing(t);
    assert t[1..] == (if style == Spaced then " " else "") + x;
    assert "" + x == x;
  }

  /** What was printed is JSON text, and a reader of JSON finds in it the value that was printed. */
  lemma ParseReadsBack(v: Json, style: Style)
    ensures Parse(Print(v, style)) == Some(v)
  {
    ValueReadsBack(v, style, "");
    assert Print(v, style) + "" == Print(v, style);
  }

  // --- the layout -----------------------------------------------------------------------------------------------

  /** A character stands for itself unless JSON reserves it or the style is ASCII and it is not printable ASCII;
      seven of the others have an escape of two characters. */
  lemma EscapedExactly(c: char, style: Style)
    ensures Escaped(c, style) == [c] <==> c >= ' ' && c != '"' && c != '\\' && (style == Compact || c <= '~')
    ensures |Escaped(c, style)| == 2 <==> c in {'"', '\\', '\n', '\r', '\t', '\U{0C}', '\U{08}'}
    ensures |Escaped(c, style)| > 2 ==> forall d :: d in Escaped(c, style) ==> !('A' <= d <= 'F')
  {
    hide Hex4;
    var n := c as int;
    LowerCase(Lead(n));
    if n >= 0x10000 {
      LowerCase(Trail(n));
    }
  }

  lemma LowerCase(n: nat)
    requires n < 0x10000
    ensures |Hex4(n)| == 4 && forall d :: d in Hex4(n) ==> !('A' <= d <= 'F')
  {
  }

  function Joined(parts: seq<string>, sep: string): string {
    if parts == [] then "" else if |parts| == 1 then parts[0] else parts[0] + sep + Joined(parts[1..], sep)
  }

  /** Items stand between commas, fields under their sorted names; only the spaced style writes a blank, and one. */
  lemma PrintIsJoined(v: Json, style: Style)
    ensures v.Arr? ==>
              Print(v, style) == "[" + Joined(seq(|v.items|, i requires 0 <= i < |v.items| => Print(v.items[i], style)),
                                              if style == Spaced then ", " else ",") + "]"
    ensures v.Obj? ==>
              var keys := SortedKeys(v.fields.Keys);
              Print(v, style) == "{" + Joined(seq(|keys|, i requires 0 <= i < |keys| => FieldText(v, keys[i], style)),
                                              if style == Spaced then ", " else ",") + "}"
  {
    if v.Arr? {
      ItemsAreJoined(v.items, style);
    } else if v.Obj? {
      FieldsAreJoined(v, SortedKeys(v.fields.Keys), style);
    }
  }

  function FieldText(v: Json, key: string, style: Style): string
    requires v.Obj?
  {
    if key in v.fields then Quoted(key, style) + (if style == Spaced then ": " else ":") + Print(v.fields[key], style) else ""
  }

  lemma Unfirst(items: seq<Json>, style: Style)
    requires items != []
    ensures PrintItems(items, false, style) == (if style == Spaced then ", " else ",") + PrintItems(items, true, style)
  {
    hide Print;
  }

  lemma UnfirstField(v: Json, keys: seq<string>, style: Style)
    requires v.Obj? && keys != [] && forall k :: k in keys ==> k in v.fields
    ensures PrintFields(v, keys, false, style) == (if style == Spaced then ", " else ",") + PrintFields(v, keys, true, style)
  {
    hide Print, Quoted;
  }

  lemma AroundTheSeparator(x: string, sep: string, y: string, end: string)
    ensures "" + (x + (sep + (y + end))) == (x + sep + y) + end == x + (sep + (y + end))
  {
  }

  lemma {:induction false} ItemsAreJoined(items: seq<Json>, style: Style)
    ensures PrintItems(items, true, style) ==
            Joined(seq(|items|, i requires 0 <= i < |items| => Print(items[i], style)), if style == Spaced then ", " else ",") + "]"
  {
    hide Print;
    var parts := seq(|items|, i requires 0 <= i < |items| => Print(items[i], style));
    if |items| == 1 {
      assert PrintItems(items[1..], false, style) == "]";
    }
    if |items| > 1 {
      var sep := if style == Spaced then ", " else ",";
      ItemsAreJoined(items[1..], style);
      Unfirst(items[1..], style);
      AroundTheSeparator(parts[0], sep, Joined(parts[1..], sep), "]");
      assert parts[1..] == seq(|items[1..]|, i requires 0 <= i < |items[1..]| => Print(items[1..][i], style));
    }
  }

  lemma FirstField(v: Json, keys: seq<string>, style: Style)
    requires v.Obj? && keys != [] && forall k :: k in keys ==> k in v.fields
    ensures PrintFields(v, keys, true, style) == FieldText(v, keys[0], style) + PrintFields(v, keys[1..], false, style)
  {
    hide Print, Quoted;
    var k, colon, p := Quoted(keys[0], style), Colon(style), Print(v.fields[keys[0]], style);
    Append3(k, colon, p, PrintFields(v, keys[1..], false, style));
    assert "" + FieldText(v, keys[0], style) == FieldText(v, keys[0], style) == k + (colon + p);
  }

  lemma {:induction false} FieldsAreJoined(v: Json, keys: seq<string>, style: Style)
    requires v.Obj? && forall k :: k in keys ==> k in v.fields
    ensures PrintFields(v, keys, true, style) ==
            Joined(seq(|keys|, i requires 0 <= i < |keys| => FieldText(v, keys[i], style)), if style == Spaced then ", " else ",")
            + "}"
  {
    hide PrintFields, FieldText;
    var parts := seq(|keys|, i requires 0 <= i < |keys| => FieldText(v, keys[i], style));
    if keys == [] {
      assert PrintFields(v, keys, true, style) == "}" by { LastBrace(v, style); }
    } else {
      FirstField(v, keys, style);
      if |keys| == 1 {
        LastBrace(v, style);
        assert keys[1..] == [];
      } else {
        var sep := if style == Spaced then ", " else ",";
        FieldsAreJoined(v, keys[1..], style);
        UnfirstField(v, keys[1..], style);
        AroundTheSeparator(parts[0], sep, Joined(parts[1..], sep), "}");
        assert parts[1..] == seq(|keys[1..]|, i requires 0 <= i < |keys[1..]| => FieldText(v, keys[1..][i], style));
      }
    }
  }

  lemma LastBrace(v: Json, style: Style)
    requires v.Obj?
    ensures forall first :: PrintFields(v, [], first, style) == "}"
  {
  }
}
