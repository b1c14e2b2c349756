/** base64url without padding: the encoder, and the lenient decoder of the Python standard library. */
module Base64 {
  import opened Models
  import opened Text

  type Byte = b: nat | b < 256

  // --- alphabet (table 2 of RFC 4648) ---------------------------------------------------------------------------

  function CharOf(v: nat): char
    requires v < 64
  {
    if v < 26 then (65 + v) as char
    else if v < 52 then (97 + v - 26) as char
    else if v < 62 then (48 + v - 52) as char
    else if v == 62 then '-' else '_'
  }

  /** The decoder maps `-` and `_` to `+` and `/` first, so it accepts both alphabets. */
  function ValueOf(c: char): Option<nat> {
    if 'A' <= c <= 'Z' then Some(c as int - 65)
    else if 'a' <= c <= 'z' then Some(c as int - 97 + 26)
    else if '0' <= c <= '9' then Some(c as int - 48 + 52)
    else if c == '-' || c == '+' then Some(62)
    else if c == '_' || c == '/' then Some(63)
    else None
  }

  lemma ValueOfChar(v: nat)
    requires v < 64
    ensures ValueOf(CharOf(v)) == Some(v) && CharOf(v) != '=' && CharOf(v) != '.' && CharOf(v) as int < 128
  {
  }

  // --- encoding -------------------------------------------------------------------------------------------------

  /** Section 5 of RFC 4648, with the padding removed. */
  function Encode(data: seq<Byte>): string {
    if data == [] then ""
    else if |data| == 1 then [CharOf(data[0] / 4), CharOf(data[0] % 4 * 16)]
    else if |data| == 2 then
      [CharOf(data[0] / 4), CharOf(data[0] % 4 * 16 + data[1] / 16), CharOf(data[1] % 16 * 4)]
    else
      [CharOf(data[0] / 4), CharOf(data[0] % 4 * 16 + data[1] / 16), CharOf(data[1] % 16 * 4 + data[2] / 64),
       CharOf(data[2] % 64)] + Encode(data[3..])
  }

  // --- decoding -------------------------------------------------------------------------------------------------

  function Prepend(b: Byte, rest: Option<seq<Byte>>): Option<seq<Byte>> {
    if rest.None? then None else Some([b] + rest.value)
  }

  /** a2b_base64 without strict mode: characters outside the alphabet are skipped, enough padding ends the input, and
      a quad that is left open is an error. `quad` counts the characters of the open quad, `left` holds their bits. */
  function DecodeFrom(text: string, quad: nat, left: nat, pads: nat): Option<seq<Byte>>
    requires quad < 4
    requires left < (if quad == 1 then 64 else if quad == 2 then 16 else if quad == 3 then 4 else 1)
    decreases |text|
  {
    if text == "" then (if quad == 0 then Some([]) else None)
    else if text[0] == '=' then
      if quad >= 2 && quad + pads + 1 >= 4 then Some([])
      else DecodeFrom(text[1..], quad, left, if quad >= 2 then pads + 1 else pads)
    else
      var v := ValueOf(text[0]);
      if v.None? then DecodeFrom(text[1..], quad, left, pads)
      else if quad == 0 then DecodeFrom(text[1..], 1, v.value, 0)
      else if quad == 1 then Prepend(left * 4 + v.value / 16, DecodeFrom(text[1..], 2, v.value % 16, 0))
      else if quad == 2 then Prepend(left * 16 + v.value / 4, DecodeFrom(text[1..], 3, v.value % 4, 0))
      else Prepend(left * 64 + v.value, DecodeFrom(text[1..], 0, 0, 0))
  }

  /** The padding that brings a text of n characters to a multiple of four. */
  function Padding(n: nat): string {
    match n % 4 case 0 => "" case 1 => "===" case 2 => "==" case _ => "="
  }

  /** None where the original raises. */
  function Decode(text: string): Option<seq<Byte>> {
    if !IsAscii(text) then None else DecodeFrom(text + Padding(|text|), 0, 0, 0)
  }

  // --- round trip -----------------------------------------------------------------------------------------------

  lemma DecodeChar(v: nat, text: string, quad: nat, left: nat, pads: nat)
    requires v < 64 && quad < 4
    requires left < (if quad == 1 then 64 else if quad == 2 then 16 else if quad == 3 then 4 else 1)
    ensures DecodeFrom([CharOf(v)] + text, quad, left, pads) ==
            if quad == 0 then DecodeFrom(text, 1, v, 0)
            else if quad == 1 then Prepend(left * 4 + v / 16, DecodeFrom(text, 2, v % 16, 0))
            else if quad == 2 then Prepend(left * 16 + v / 4, DecodeFrom(text, 3, v % 4, 0))
            else Prepend(left * 64 + v, DecodeFrom(text, 0, 0, 0))
  {
    ValueOfChar(v);
    assert ([CharOf(v)] + text)[0] == CharOf(v) && ([CharOf(v)] + text)[1..] == text;
  }

  lemma SextetsJoin(a: Byte, b: Byte, c: Byte)
    ensures var v1, v2 := a % 4 * 16 + b / 16, b % 16 * 4 + c / 64;
            && v1 < 64 && v2 < 64
            && a / 4 * 4 + v1 / 16 == a && v1 % 16 * 16 + v2 / 4 == b && v2 % 4 * 64 + c % 64 == c
  {
  }

  /** Three bytes are four characters, and back. */
  lemma DecodeQuad(a: Byte, b: Byte, c: Byte, text: string)
    ensures DecodeFrom([CharOf(a / 4), CharOf(a % 4 * 16 + b / 16), CharOf(b % 16 * 4 + c / 64), CharOf(c % 64)] + text,
                       0, 0, 0) == Prepend(a, Prepend(b, Prepend(c, DecodeFrom(text, 0, 0, 0))))
  {
    hide CharOf, DecodeFrom;
    SextetsJoin(a, b, c);
    var v0, v1, v2, v3 := a / 4, a % 4 * 16 + b / 16, b % 16 * 4 + c / 64, c % 64;
    var t3 := [CharOf(v3)] + text;
    var t2 := [CharOf(v2)] + t3;
    var t1 := [CharOf(v1)] + t2;
    assert [CharOf(v0), CharOf(v1), CharOf(v2), CharOf(v3)] + text == [CharOf(v0)] + t1;
    DecodeChar(v0, t1, 0, 0, 0);
    DecodeChar(v1, t2, 1, v0, 0);
    DecodeChar(v2, t3, 2, v1 % 16, 0);
    DecodeChar(v3, text, 3, v2 % 4, 0);
  }

  lemma DecodeOne(a: Byte)
    ensures DecodeFrom([CharOf(a / 4), CharOf(a % 4 * 16)] + "==", 0, 0, 0) == Some([a])
  {
    var v0, v1 := a / 4, a % 4 * 16;
    assert [CharOf(v0), CharOf(v1)] + "==" == [CharOf(v0)] + ([CharOf(v1)] + "==");
    DecodeChar(v0, [CharOf(v1)] + "==", 0, 0, 0);
    DecodeChar(v1, "==", 1, v0, 0);
    assert "=="[1..] == "=";
    assert DecodeFrom("=", 2, v1 % 16, 1) == Some([]);
    assert DecodeFrom("==", 2, v1 % 16, 0) == Some([]);
    assert v0 * 4 + v1 / 16 == a && [a] + [] == [a];
  }

  lemma DecodeTwo(a: Byte, b: Byte)
    ensures DecodeFrom([CharOf(a / 4), CharOf(a % 4 * 16 + b / 16), CharOf(b % 16 * 4)] + "=", 0, 0, 0) == Some([a, b])
  {
    var v0, v1, v2 := a / 4, a % 4 * 16 + b / 16, b % 16 * 4;
    var t2 := [CharOf(v2)] + "=";
    var t1 := [CharOf(v1)] + t2;
    assert [CharOf(v0), CharOf(v1), CharOf(v2)] + "=" == [CharOf(v0)] + t1;
    DecodeChar(v0, t1, 0, 0, 0);
    DecodeChar(v1, t2, 1, v0, 0);
    DecodeChar(v2, "=", 2, v1 % 16, 0);
    assert v0 * 4 + v1 / 16 == a && v1 % 16 * 16 + v2 / 4 == b;
    assert "="[1..] == "";
    assert DecodeFrom("=", 3, v2 % 4, 0) == Some([]);
    assert [b] + [] == [b] && [a] + [b] == [a, b];
  }

  lemma {:induction false} EncodeDecodes(data: seq<Byte>, rest: string)
    requires rest == Padding(|Encode(data)|)
    ensures DecodeFrom(Encode(data) + rest, 0, 0, 0) == Some(data)
    decreases |data|
  {
    hide CharOf, DecodeFrom;
    if data == [] {
      EmptyDecodes();
    } else if |data| == 1 {
      DecodeOne(data[0]);
      assert data == [data[0]];
    } else if |data| == 2 {
      DecodeTwo(data[0], data[1]);
      assert data == [data[0], data[1]];
    } else {
      var tail := Encode(data[3..]);
      EncodeDecodes(data[3..], rest);
      DecodeQuad(data[0], data[1], data[2], tail + rest);
      assert Encode(data) + rest == Encode(data)[..4] + (tail + rest);
      assert data == [data[0]] + ([data[1]] + ([data[2]] + data[3..]));
    }
  }

  lemma EmptyDecodes()
    ensures DecodeFrom("", 0, 0, 0) == Some([])
  {
  }

  /** What an encoded text looks like: only the alphabet, four characters for every three bytes, rounded up. */
  lemma {:induction false} EncodeShape(data: seq<Byte>)
    ensures forall i :: 0 <= i < |Encode(data)| ==>
              ValueOf(Encode(data)[i]).Some? && Encode(data)[i] != '.' && Encode(data)[i] as int < 128
    ensures |Encode(data)| == (4 * |data| + 2) / 3
    decreases |data|
  {
    forall v: nat | v < 64 ensures ValueOf(CharOf(v)) == Some(v) && CharOf(v) != '.' && CharOf(v) as int < 128 {
      ValueOfChar(v);
    }
    if |data| >= 3 {
      EncodeShape(data[3..]);
    }
  }

  /** base64url round trip, for every length modulo four. */
  lemma RoundTrip(data: seq<Byte>)
    ensures Decode(Encode(data)) == Some(data)
  {
    EncodeShape(data);
    EncodeDecodes(data, Padding(|Encode(data)|));
  }

  // --- what decodes ---------------------------------------------------------------------------------------------

  function BytesIn(quad: nat, n: nat): nat
    requires quad < 4
  {
    (quad + n) * 3 / 4 - quad * 3 / 4
  }

  lemma {:induction false} DecodesFrom(text: string, quad: nat, left: nat, rest: string)
    requires (forall c :: c in text ==> ValueOf(c).Some?) && quad < 4
    requires left < (if quad == 1 then 64 else if quad == 2 then 16 else if quad == 3 then 4 else 1)
    requires rest == Padding(quad + |text|)
    ensures var r := DecodeFrom(text + rest, quad, left, 0);
            && (r.Some? <==> (quad + |text|) % 4 != 1)
            && (r.Some? ==> |r.value| == BytesIn(quad, |text|))
    decreases |text|
  {
    if text == "" {
      assert text + rest == rest;
      PaddingEnds(quad, left);
    } else {
      var v := ValueOf(text[0]).value;
      ValuesFit(text[0]);
      assert (text + rest)[0] == text[0] && (text + rest)[1..] == text[1..] + rest;
      assert text[0] in text && text[0] != '=';
      if quad == 0 {
        DecodesFrom(text[1..], 1, v, rest);
      } else if quad == 1 {
        DecodesFrom(text[1..], 2, v % 16, rest);
      } else if quad == 2 {
        DecodesFrom(text[1..], 3, v % 4, rest);
      } else {
        DecodesFrom(text[1..], 0, 0, rest);
      }
    }
  }

  lemma ValuesFit(c: char)
    ensures ValueOf(c).Some? ==> ValueOf(c).value < 64 && c != '='
  {
  }

  lemma PaddingEnds(quad: nat, left: nat)
    requires quad < 4
    requires left < (if quad == 1 then 64 else if quad == 2 then 16 else if quad == 3 then 4 else 1)
    ensures DecodeFrom(Padding(quad), quad, left, 0) == if quad == 1 then None else Some([])
  {
    assert "==="[1..] == "==" && "=="[1..] == "=" && "="[1..] == "";
    assert quad == 1 ==> DecodeFrom("=", 1, left, 0) == None && DecodeFrom("==", 1, left, 0) == None;
  }

  /** Any text over the two alphabets decodes, to three bytes for every four characters, unless its length leaves one over. */
  lemma DecodesExactly(text: string)
    requires forall c :: c in text ==> ValueOf(c).Some?
    ensures Decode(text).Some? <==> |text| % 4 != 1
    ensures Decode(text).Some? ==> |Decode(text).value| == |text| * 3 / 4
  {
    forall i | 0 <= i < |text| ensures text[i] as int < 128 {
      assert text[i] in text;
    }
    DecodesFrom(text, 0, 0, Padding(|text|));
  }
}
