/** JSON text as Python's json.dumps writes it with sorted keys, in the three styles the engine uses. */
module JsonText {
  import opened Text
  import opened Order

  datatype Json = Null | Bool(b: bool) | Int(n: int) | Str(s: string) | Arr(items: seq<Json>) |
                  Obj(fields: map<string, Json>)

  /** Compact: no blanks, non-ASCII kept (canonical text). Ascii: no blanks, ASCII only (link payloads). Spaced:
      json.dumps's defaults, ASCII only (the sort key of sets). */
  datatype Style = Compact | Ascii | Spaced

  // --- strings --------------------------------------------------------------------------------------------------

  function HexDigit(d: nat): char
    requires d < 16
  {
    if d < 10 then (48 + d) as char else (87 + d) as char
  }

  function Hex4(n: nat): string
    requires n < 0x10000
  {
    [HexDigit(n / 16 / 16 / 16), HexDigit(n / 16 / 16 % 16), HexDigit(n / 16 % 16), HexDigit(n % 16)]
  }

  /** The UTF-16 code units of a character. */
  function Lead(n: nat): nat { if n < 0x10000 then n else 0xD800 + (n - 0x10000) / 0x400 }

  function Trail(n: nat): nat
    requires n >= 0x10000
  {
    0xDC00 + (n - 0x10000) % 0x400
  }

  function UnicodeEscape(c: char): string {
    var n := c as int;
    "\\u" + (Hex4(Lead(n)) + if n < 0x10000 then "" else "\\u" + (Hex4(Trail(n)) + ""))
  }

  function Escaped(c: char, style: Style): string {
    if c == '"' then "\\\"" else if c == '\\' then "\\\\"
    else if c == '\n' then "\\n" else if c == '\r' then "\\r" else if c == '\t' then "\\t"
    else if c == '\U{0C}' then "\\f" else if c == '\U{08}' then "\\b"
    else if c < ' ' || (style != Compact && c > '~') then UnicodeEscape(c)
    else [c]
  }

  /** The characters and the closing quote. */
  function Body(s: string, style: Style): string {
    if s == "" then "\"" else Escaped(s[0], style) + Body(s[1..], style)
  }

  function Quoted(s: string, style: Style): string { "\"" + Body(s, style) }

  // --- values ---------------------------------------------------------------------------------------------------

  function Sep(first: bool, style: Style): string { if first then "" else if style == Spaced then ", " else "," }

  function Colon(style: Style): string { if style == Spaced then ": " else ":" }

  ghost predicate IsLeast(k: string, keys: set<string>) { k in keys && forall j :: j in keys ==> StrLe(k, j) }

  lemma {:induction false} LeastExists(keys: set<string>) returns (k: string)
    requires keys != {}
    ensures IsLeast(k, keys)
    decreases |keys|
  {
    k :| k in keys;
    if keys != {k} {
      var rest := keys - {k};
      assert rest != {};
      var l := LeastExists(rest);
      StrLeTotal(k, l);
      StrLeTotal(k, k);
      if StrLe(k, l) {
        forall j | j in keys ensures StrLe(k, j) {
          if j != k {
            StrLeTransitive(k, l, j);
          }
        }
      } else {
        k := l;
      }
    } else {
      StrLeTotal(k, k);
    }
  }

  lemma OneLeast(keys: set<string>)
    requires keys != {}
    ensures exists k :: IsLeast(k, keys)
    ensures forall k, l :: IsLeast(k, keys) && IsLeast(l, keys) ==> k == l
  {
    var _ := LeastExists(keys);
    forall k, l | IsLeast(k, keys) && IsLeast(l, keys) ensures k == l {
      StrLeAntisymmetric(k, l);
    }
  }

  function Least(keys: set<string>): (k: string)
    requires keys != {}
    ensures IsLeast(k, keys)
  {
    OneLeast(keys);
    assert forall k :: IsLeast(k, keys) <==> (k in keys && forall j :: j in keys ==> StrLe(k, j));
    var k :| k in keys && forall j :: j in keys ==> StrLe(k, j);
    k
  }

  /** A dictionary's keys by code point. */
  function SortedKeys(keys: set<string>): (r: seq<string>)
    ensures forall k :: k in r <==> k in keys
    ensures forall i, j :: 0 <= i < j < |r| ==> StrLe(r[i], r[j]) && r[i] != r[j]
  {
    if keys == {} then [] else [Least(keys)] + SortedKeys(keys - {Least(keys)})
  }

  lemma {:induction false} SortedKeysLength(keys: set<string>)
    ensures |SortedKeys(keys)| == |keys|
    decreases |keys|
  {
    hide StrLe;
    if keys != {} {
      SortedKeysLength(keys - {Least(keys)});
    }
  }

  function Print(v: Json, style: Style): string
    decreases v
  {
    match v
    case Null => "null"
    case Bool(b) => if b then "true" else "false"
    case Int(n) => IntText(n)
    case Str(s) => Quoted(s, style)
    case Arr(items) => "[" + PrintItems(items, true, style)
    case Obj(fields) => "{" + PrintFields(v, SortedKeys(fields.Keys), true, style)
  }

  function PrintItems(items: seq<Json>, first: bool, style: Style): string
    decreases items
  {
    if items == [] then "]" else Sep(first, style) + (Print(items[0], style) + PrintItems(items[1..], false, style))
  }

  function PrintFields(v: Json, keys: seq<string>, first: bool, style: Style): string
    requires v.Obj? && forall k :: k in keys ==> k in v.fields
    decreases v, |keys|
  {
    if keys == [] then "}"
    else Sep(first, style) + (Quoted(keys[0], style) + (Colon(style) + (Print(v.fields[keys[0]], style)
         + PrintFields(v, keys[1..], false, style))))
  }

  // --- unambiguity ----------------------------------------------------------------------------------------------

  lemma SplitAt(x: string, y: string, r: string, q: string)
    requires x + r == y + q && |x| == |y|
    ensures x == y && r == q
  {
    assert x == (x + r)[..|x|] && r == (x + r)[|x|..];
    assert y == (y + q)[..|y|] && q == (y + q)[|y|..];
  }

  lemma HexDigitIsInjective(d: nat, e: nat)
    requires d < 16 && e < 16 && HexDigit(d) == HexDigit(e)
    ensures d == e
  {
  }

  lemma Hex4IsInjective(m: nat, n: nat)
    requires m < 0x10000 && n < 0x10000 && Hex4(m) == Hex4(n)
    ensures m == n
  {
    hide HexDigit;
    var a, b := Hex4(m), Hex4(n);
    assert a[0] == b[0] && a[1] == b[1] && a[2] == b[2] && a[3] == b[3];
    HexDigitIsInjective(m / 16 / 16 / 16, n / 16 / 16 / 16);
    HexDigitIsInjective(m / 16 / 16 % 16, n / 16 / 16 % 16);
    HexDigitIsInjective(m / 16 % 16, n / 16 % 16);
    HexDigitIsInjective(m % 16, n % 16);
  }

  lemma UnitSplits(m: nat, n: nat, x: string, y: string)
    requires m < 0x10000 && n < 0x10000 && "\\u" + (Hex4(m) + x) == "\\u" + (Hex4(n) + y)
    ensures m == n && x == y
  {
    hide HexDigit;
    SplitAt("\\u", "\\u", Hex4(m) + x, Hex4(n) + y);
    SplitAt(Hex4(m), Hex4(n), x, y);
    Hex4IsInjective(m, n);
  }

  lemma Append3(x: string, y: string, z: string, r: string)
    ensures (x + (y + z)) + r == x + (y + (z + r))
  {
  }

  lemma UnicodeEscapeSplits(c: char, d: char, r: string, q: string)
    requires UnicodeEscape(c) + r == UnicodeEscape(d) + q
    ensures c == d && r == q
  {
    hide Hex4;
    var m, n := c as int, d as int;
    var x := if m < 0x10000 then "" else "\\u" + (Hex4(Trail(m)) + "");
    var y := if n < 0x10000 then "" else "\\u" + (Hex4(Trail(n)) + "");
    Append3("\\u", Hex4(Lead(m)), x, r);
    Append3("\\u", Hex4(Lead(n)), y, q);
    UnitSplits(Lead(m), Lead(n), x + r, y + q);
    assert "" + r == r && "" + q == q;
    if m >= 0x10000 {
      Append3("\\u", Hex4(Trail(m)), "", r);
      Append3("\\u", Hex4(Trail(n)), "", q);
      UnitSplits(Trail(m), Trail(n), r, q);
    }
  }

  lemma EscapedSplits(c: char, d: char, r: string, q: string, style: Style)
    requires Escaped(c, style) + r == Escaped(d, style) + q
    ensures c == d && r == q
  {
    hide Hex4;
    var x, y := Escaped(c, style) + r, Escaped(d, style) + q;
    assert x[0] == Escaped(c, style)[0] && y[0] == Escaped(d, style)[0];
    if x[0] == '\\' {
      assert x[1] == Escaped(c, style)[1] && y[1] == Escaped(d, style)[1];
      if x[1] == 'u' {
        UnicodeEscapeSplits(c, d, r, q);
      } else {
        SplitAt(Escaped(c, style), Escaped(d, style), r, q);
      }
    } else {
      SplitAt(Escaped(c, style), Escaped(d, style), r, q);
    }
  }

  lemma EscapedStarts(c: char, style: Style)
    ensures Escaped(c, style) != "" && Escaped(c, style)[0] != '"'
  {
  }

  lemma {:induction false} BodySplits(s: string, t: string, r: string, q: string, style: Style)
    requires Body(s, style) + r == Body(t, style) + q
    ensures s == t && r == q
  {
    hide Escaped;
    var x, y := Body(s, style) + r, Body(t, style) + q;
    if s != "" {
      EscapedStarts(s[0], style);
      assert x == Escaped(s[0], style) + (Body(s[1..], style) + r);
      assert x[0] != '"';
    }
    if t != "" {
      EscapedStarts(t[0], style);
      assert y == Escaped(t[0], style) + (Body(t[1..], style) + q);
      assert y[0] != '"';
    }
    if s != "" && t != "" {
      EscapedSplits(s[0], t[0], Body(s[1..], style) + r, Body(t[1..], style) + q, style);
      BodySplits(s[1..], t[1..], r, q, style);
      assert s == [s[0]] + s[1..] && t == [t[0]] + t[1..];
    } else if s == "" && t == "" {
      SplitAt("\"", "\"", r, q);
    }
  }

  lemma QuotedSplits(s: string, t: string, r: string, q: string, style: Style)
    requires Quoted(s, style) + r == Quoted(t, style) + q
    ensures s == t && r == q
  {
    hide Body;
    assert Quoted(s, style) + r == "\"" + (Body(s, style) + r) && Quoted(t, style) + q == "\"" + (Body(t, style) + q);
    SplitAt("\"", "\"", Body(s, style) + r, Body(t, style) + q);
    BodySplits(s, t, r, q, style);
  }

  /** What can follow a value inside a document, or nothing at all. */
  predicate Ends(r: string) { r == "" || r[0] in {',', ']', '}'} }

  lemma LongerHasEnd(x: string, y: string, r: string, q: string)
    requires x + r == y + q && |x| < |y| && Ends(r)
    ensures y[|x|] in {',', ']', '}'}
  {
    assert (x + r)[|x|] == (y + q)[|x|] == y[|x|];
    assert r != "" && (x + r)[|x|] == r[0];
  }

  lemma NumeralHasNoEnd(n: int, i: nat)
    requires i < |IntText(n)|
    ensures IntText(n)[i] !in {',', ']', '}'}
  {
    NatTextReadsBack(if n < 0 then -n else n);
    assert n < 0 && i > 0 ==> IntText(n)[i] == NatText(-n)[i - 1];
  }

  lemma IntSplits(m: int, n: int, r: string, q: string)
    requires IntText(m) + r == IntText(n) + q && Ends(r) && Ends(q)
    ensures m == n && r == q
  {
    hide IntText, Ends;
    if |IntText(m)| < |IntText(n)| {
      NumeralHasNoEnd(n, |IntText(m)|);
      LongerHasEnd(IntText(m), IntText(n), r, q);
    } else if |IntText(m)| > |IntText(n)| {
      NumeralHasNoEnd(m, |IntText(n)|);
      LongerHasEnd(IntText(n), IntText(m), q, r);
    } else {
      SplitAt(IntText(m), IntText(n), r, q);
      IntTextIsInjective(m, n);
    }
  }

  /** The first character tells the kind of a value. */
  function Kind(v: Json): set<char> {
    match v
    case Null => {'n'}
    case Bool(b) => if b then {'t'} else {'f'}
    case Int(n) => {'-', '0', '1', '2', '3', '4', '5', '6', '7', '8', '9'}
    case Str(_) => {'"'}
    case Arr(_) => {'['}
    case Obj(_) => {'{'}
  }

  lemma PrintStarts(v: Json, style: Style)
    ensures Print(v, style) != "" && Print(v, style)[0] in Kind(v)
  {
    if v.Int? {
      NatTextReadsBack(if v.n < 0 then -v.n else v.n);
    }
  }

  lemma ItemsEnd(items: seq<Json>, r: string, style: Style)
    ensures Ends(PrintItems(items, false, style) + r) && PrintItems(items, false, style) != ""
  {
  }

  lemma FieldsEnd(v: Json, keys: seq<string>, r: string, style: Style)
    requires v.Obj? && forall k :: k in keys ==> k in v.fields
    ensures Ends(PrintFields(v, keys, false, style) + r) && PrintFields(v, keys, false, style) != ""
  {
  }

  /** Printed values need no separator to be told apart: where one ends is determined by the text. */
  lemma {:induction false} PrintSplits(v: Json, w: Json, r: string, q: string, style: Style)
    requires Print(v, style) + r == Print(w, style) + q && Ends(r) && Ends(q)
    ensures v == w && r == q
    decreases v
  {
    hide Quoted, IntText, PrintItems, PrintFields, SortedKeys, Ends;
    PrintStarts(v, style);
    PrintStarts(w, style);
    assert (Print(v, style) + r)[0] == Print(v, style)[0] && (Print(w, style) + q)[0] == Print(w, style)[0];
    match v {
      case Null => SplitAt(Print(v, style), Print(w, style), r, q);
      case Bool(b) => SplitAt(Print(v, style), Print(w, style), r, q);
      case Int(n) => IntSplits(n, w.n, r, q);
      case Str(s) => QuotedSplits(s, w.s, r, q, style);
      case Arr(items) => ArrSplits(v, w, r, q, style);
      case Obj(fields) => ObjSplits(v, w, r, q, style);
    }
  }

  lemma {:induction false} ArrSplits(v: Json, w: Json, r: string, q: string, style: Style)
    requires v.Arr? && w.Arr? && Print(v, style) + r == Print(w, style) + q
    ensures v == w && r == q
    decreases v, 0
  {
    hide PrintItems;
    var x, y := PrintItems(v.items, true, style), PrintItems(w.items, true, style);
    assert Print(v, style) + r == "[" + (x + r) && Print(w, style) + q == "[" + (y + q);
    SplitAt("[", "[", x + r, y + q);
    ItemsSplit(v.items, w.items, true, r, q, style);
  }

  lemma {:induction false} ObjSplits(v: Json, w: Json, r: string, q: string, style: Style)
    requires v.Obj? && w.Obj? && Print(v, style) + r == Print(w, style) + q
    ensures v == w && r == q
    decreases v, |SortedKeys(v.fields.Keys)| + 1
  {
    hide PrintFields;
    var ks, ls := SortedKeys(v.fields.Keys), SortedKeys(w.fields.Keys);
    var x, y := PrintFields(v, ks, true, style), PrintFields(w, ls, true, style);
    assert Print(v, style) + r == "{" + (x + r) && Print(w, style) + q == "{" + (y + q);
    SplitAt("{", "{", x + r, y + q);
    FieldsSplit(v, ks, w, ls, true, r, q, style);
    assert v.fields.Keys == w.fields.Keys by {
      assert forall k :: k in v.fields.Keys <==> k in ks;
      assert forall k :: k in w.fields.Keys <==> k in ls;
    }
    assert v.fields == w.fields;
  }

  /** What a printed list looks like from its front. */
  lemma ItemsFront(xs: seq<Json>, first: bool, r: string, style: Style)
    ensures var x := PrintItems(xs, first, style) + r;
            if xs == [] then x == "]" + r && x[0] == ']'
            else
              var rest := PrintItems(xs[1..], false, style) + r;
              x == Sep(first, style) + (Print(xs[0], style) + rest) && x[0] != ']' && Ends(rest)
  {
    var x := PrintItems(xs, first, style) + r;
    if xs != [] {
      hide Print;
      PrintStarts(xs[0], style);
      ItemsEnd(xs[1..], r, style);
      var p := Print(xs[0], style);
      Append3(Sep(first, style), p, PrintItems(xs[1..], false, style), r);
      assert first ==> x[0] == p[0];
    }
  }

  lemma {:induction false} ItemsSplit(xs: seq<Json>, ys: seq<Json>, first: bool, r: string, q: string, style: Style)
    requires PrintItems(xs, first, style) + r == PrintItems(ys, first, style) + q
    ensures xs == ys && r == q
    decreases xs
  {
    hide Print, PrintItems, Ends;
    ItemsFront(xs, first, r, style);
    ItemsFront(ys, first, q, style);
    if xs != [] && ys != [] {
      var sep, xr, yr := Sep(first, style), PrintItems(xs[1..], false, style) + r, PrintItems(ys[1..], false, style) + q;
      SplitAt(sep, sep, Print(xs[0], style) + xr, Print(ys[0], style) + yr);
      PrintSplits(xs[0], ys[0], xr, yr, style);
      ItemsSplit(xs[1..], ys[1..], false, r, q, style);
      assert xs == [xs[0]] + xs[1..] && ys == [ys[0]] + ys[1..];
    } else if xs == [] && ys == [] {
      SplitAt("]", "]", r, q);
    }
  }

  lemma FieldsFront(v: Json, ks: seq<string>, first: bool, r: string, style: Style)
    requires v.Obj? && forall k :: k in ks ==> k in v.fields
    ensures var x := PrintFields(v, ks, first, style) + r;
            if ks == [] then x == "}" + r && x[0] == '}'
            else
              var rest := PrintFields(v, ks[1..], false, style) + r;
              && x == Sep(first, style) + (Quoted(ks[0], style) + (Colon(style) + (Print(v.fields[ks[0]], style) + rest)))
              && x[0] != '}' && Ends(rest)
  {
    var x := PrintFields(v, ks, first, style) + r;
    if ks != [] {
      hide Print, Body;
      FieldsEnd(v, ks[1..], r, style);
      var sep, k, colon, p := Sep(first, style), Quoted(ks[0], style), Colon(style), Print(v.fields[ks[0]], style);
      var rest := PrintFields(v, ks[1..], false, style);
      Append3(sep, k, colon + (p + rest), r);
      Append3(colon, p, rest, r);
      assert first ==> x[0] == k[0];
    }
  }

  lemma KeySplits(k: string, l: string, x: string, y: string, first: bool, style: Style)
    requires Sep(first, style) + (Quoted(k, style) + (Colon(style) + x)) ==
             Sep(first, style) + (Quoted(l, style) + (Colon(style) + y))
    ensures k == l && x == y
  {
    hide Sep, Colon, Quoted;
    var sep, colon := Sep(first, style), Colon(style);
    SplitAt(sep, sep, Quoted(k, style) + (colon + x), Quoted(l, style) + (colon + y));
    QuotedSplits(k, l, colon + x, colon + y, style);
    SplitAt(colon, colon, x, y);
  }

  lemma {:induction false} FieldsSplit(v: Json, ks: seq<string>, w: Json, ls: seq<string>, first: bool,
                                       r: string, q: string, style: Style)
    requires v.Obj? && (forall k :: k in ks ==> k in v.fields) && w.Obj? && forall k :: k in ls ==> k in w.fields
    requires PrintFields(v, ks, first, style) + r == PrintFields(w, ls, first, style) + q
    ensures ks == ls && r == q && forall k :: k in ks ==> v.fields[k] == w.fields[k]
    decreases v, |ks|
  {
    hide Print, PrintFields, Ends, Quoted, Sep, Colon;
    FieldsFront(v, ks, first, r, style);
    FieldsFront(w, ls, first, q, style);
    if ks != [] && ls != [] {
      var xr, yr := PrintFields(v, ks[1..], false, style) + r, PrintFields(w, ls[1..], false, style) + q;
      var p, t := Print(v.fields[ks[0]], style), Print(w.fields[ls[0]], style);
      KeySplits(ks[0], ls[0], p + xr, t + yr, first, style);
      PrintSplits(v.fields[ks[0]], w.fields[ls[0]], xr, yr, style);
      FieldsSplit(v, ks[1..], w, ls[1..], false, r, q, style);
      assert ks == [ks[0]] + ks[1..] && ls == [ls[0]] + ls[1..];
    } else if ks == [] && ls == [] {
      SplitAt("}", "}", r, q);
    }
  }

  /** Different values print differently, in either style. */
  lemma PrintIsInjective(v: Json, w: Json, style: Style)
    requires Print(v, style) == Print(w, style)
    ensures v == w
  {
    assert Print(v, style) + "" == Print(w, style) + "";
    PrintSplits(v, w, "", "", style);
  }

  // --- ASCII output ---------------------------------------------------------------------------------------------

  lemma EscapedIsAscii(c: char, style: Style)
    requires style != Compact
    ensures IsAscii(Escaped(c, style))
  {
  }

  lemma {:induction false} BodyIsAscii(s: string, style: Style)
    requires style != Compact
    ensures IsAscii(Body(s, style))
  {
    hide Escaped;
    if s != "" {
      EscapedIsAscii(s[0], style);
      BodyIsAscii(s[1..], style);
    }
  }

  lemma IntIsAscii(n: int)
    ensures IsAscii(IntText(n))
  {
    NatTextReadsBack(if n < 0 then -n else n);
  }

  lemma Append2Ascii(x: string, y: string)
    requires IsAscii(x) && IsAscii(y)
    ensures IsAscii(x + y)
  {
  }

  /** Two of the styles print ASCII only. */
  lemma {:induction false} PrintIsAscii(v: Json, style: Style)
    requires style != Compact
    ensures IsAscii(Print(v, style))
    decreases v
  {
    hide Body, IntText;
    match v {
      case Str(s) => BodyIsAscii(s, style);
      case Int(n) => IntIsAscii(n);
      case Arr(items) => ItemsAreAscii(items, true, style);
      case Obj(fields) => FieldsAreAscii(v, SortedKeys(fields.Keys), true, style);
      case _ =>
    }
  }

  lemma {:induction false} ItemsAreAscii(items: seq<Json>, first: bool, style: Style)
    requires style != Compact
    ensures IsAscii(PrintItems(items, first, style))
    decreases items
  {
    hide Print;
    if items != [] {
      PrintIsAscii(items[0], style);
      ItemsAreAscii(items[1..], false, style);
    }
  }

  lemma {:induction false} FieldsAreAscii(v: Json, keys: seq<string>, first: bool, style: Style)
    requires style != Compact && v.Obj? && forall k :: k in keys ==> k in v.fields
    ensures IsAscii(PrintFields(v, keys, first, style))
    decreases v, |keys|
  {
    hide Print, Body, IsAscii;
    if keys != [] {
      var k, p, rest := Quoted(keys[0], style), Print(v.fields[keys[0]], style), PrintFields(v, keys[1..], false, style);
      PrintIsAscii(v.fields[keys[0]], style);
      BodyIsAscii(keys[0], style);
      FieldsAreAscii(v, keys[1..], false, style);
      PunctuationIsAscii(first, style);
      Append2Ascii("\"", Body(keys[0], style));
      Append2Ascii(p, rest);
      Append2Ascii(Colon(style), p + rest);
      Append2Ascii(k, Colon(style) + (p + rest));
      Append2Ascii(Sep(first, style), k + (Colon(style) + (p + rest)));
    } else {
      PunctuationIsAscii(first, style);
    }
  }

  lemma PunctuationIsAscii(first: bool, style: Style)
    ensures IsAscii(Sep(first, style)) && IsAscii(Colon(style)) && IsAscii("}") && IsAscii("\"")
  {
  }
}
