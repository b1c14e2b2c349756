/** Signed decision links: what a link claims, how it is signed, and when it is believed.

    The MAC is any function to 32 bytes, and `loads` any parser that reads back what the printer wrote. */
module Links {
  import opened Models
  import opened Text
  import opened JsonText
  import opened Base64
  import JsonReader

  datatype Choice = Approved | Refused

  datatype Claims = Claims(runId: string, actionId: string, paramsHash: string, approver: string, choice: Choice, exp: int)

  predicate HexDigits(s: string) { forall i :: 0 <= i < |s| ==> '0' <= s[i] <= '9' || 'a' <= s[i] <= 'f' }

  /** A UUID as it is printed. */
  predicate IsUuid(s: string) {
    && |s| == 36
    && forall i :: 0 <= i < 36 ==> if i in {8, 13, 18, 23} then s[i] == '-' else '0' <= s[i] <= '9' || 'a' <= s[i] <= 'f'
  }

  predicate Named(s: string) { 1 <= |s| <= 64 && '|' !in s }

  /** What the claims model accepts. */
  predicate Valid(c: Claims) {
    IsUuid(c.runId) && Named(c.actionId) && |c.paramsHash| == 64 && HexDigits(c.paramsHash) && Named(c.approver)
  }

  function ChoiceText(c: Choice): string { if c == Choice.Approved then "approved" else "refused" }

  // --- the signed string ----------------------------------------------------------------------------------------

  function SignedString(c: Claims): string {
    c.runId + ("|" + (c.actionId + ("|" + (c.paramsHash + ("|" + (c.approver + ("|" + (ChoiceText(c.choice) +
      ("|" + IntText(c.exp))))))))))
  }

  lemma BarSplits(a: string, b: string, x: string, y: string)
    requires a + ("|" + x) == b + ("|" + y) && '|' !in a && '|' !in b
    ensures a == b && x == y
  {
    if |a| < |b| {
      BarInside(a, b, x, y);
    } else if |b| < |a| {
      BarInside(b, a, y, x);
    } else {
      SplitAt(a, b, "|" + x, "|" + y);
      SplitAt("|", "|", x, y);
    }
  }

  lemma BarInside(a: string, b: string, x: string, y: string)
    requires a + ("|" + x) == b + ("|" + y) && |a| < |b|
    ensures '|' in b
  {
    assert (a + ("|" + x))[|a|] == '|' == (b + ("|" + y))[|a|] == b[|a|];
  }

  /** No field contains "|", so two different claims never share a signed string. */
  lemma SignedStringsDiffer(c: Claims, d: Claims)
    requires Valid(c) && Valid(d) && SignedString(c) == SignedString(d)
    ensures c == d
  {
    hide IntText;
    BarSplits(c.runId, d.runId, c.actionId + ("|" + (c.paramsHash + ("|" + (c.approver + ("|" + (ChoiceText(c.choice) + ("|" + IntText(c.exp)))))))),
              d.actionId + ("|" + (d.paramsHash + ("|" + (d.approver + ("|" + (ChoiceText(d.choice) + ("|" + IntText(d.exp)))))))));
    BarSplits(c.actionId, d.actionId, c.paramsHash + ("|" + (c.approver + ("|" + (ChoiceText(c.choice) + ("|" + IntText(c.exp)))))),
              d.paramsHash + ("|" + (d.approver + ("|" + (ChoiceText(d.choice) + ("|" + IntText(d.exp)))))));
    BarSplits(c.paramsHash, d.paramsHash, c.approver + ("|" + (ChoiceText(c.choice) + ("|" + IntText(c.exp)))),
              d.approver + ("|" + (ChoiceText(d.choice) + ("|" + IntText(d.exp)))));
    BarSplits(c.approver, d.approver, ChoiceText(c.choice) + ("|" + IntText(c.exp)), ChoiceText(d.choice) + ("|" + IntText(d.exp)));
    BarSplits(ChoiceText(c.choice), ChoiceText(d.choice), IntText(c.exp), IntText(d.exp));
    assert ChoiceText(c.choice)[0] == ChoiceText(d.choice)[0];
    IntTextIsInjective(c.exp, d.exp);
  }

  // --- signing and verifying ------------------------------------------------------------------------------------

  function ClaimsJson(c: Claims): Json {
    Json.Obj(map["run_id" := Json.Str(c.runId), "action_id" := Json.Str(c.actionId),
                 "params_hash" := Json.Str(c.paramsHash), "approver" := Json.Str(c.approver),
                 "decision" := Json.Str(ChoiceText(c.choice)), "exp" := Json.Int(c.exp)])
  }

  function TextOf(m: map<string, Json>, k: string): Option<string> {
    if k in m && m[k].Str? then Some(m[k].s) else None
  }

  /** Exactly these keys, each of its type. */
  function Validated(j: Json): Option<Claims> {
    if !j.Obj? || j.fields.Keys != {"run_id", "action_id", "params_hash", "approver", "decision", "exp"} then None
    else
      var m := j.fields;
      var run, action, hash, approver, decision :=
        TextOf(m, "run_id"), TextOf(m, "action_id"), TextOf(m, "params_hash"), TextOf(m, "approver"), TextOf(m, "decision");
      if run.None? || action.None? || hash.None? || approver.None? || decision.None? || !m["exp"].Int? then None
      else if decision.value !in {"approved", "refused"} then None
      else
        var c := Claims(run.value, action.value, hash.value, approver.value,
                        if decision.value == "approved" then Choice.Approved else Choice.Refused, m["exp"].n);
        if Valid(c) then Some(c) else None
  }

  lemma ValidatesItself(c: Claims)
    ensures Validated(ClaimsJson(c)) == if Valid(c) then Some(c) else None
  {
    hide Valid;
    assert ClaimsJson(c).fields.Keys == {"run_id", "action_id", "params_hash", "approver", "decision", "exp"};
  }

  function Bytes(text: string): seq<Byte>
    requires IsAscii(text)
  {
    seq(|text|, i requires 0 <= i < |text| => text[i] as int)
  }

  function Payload(c: Claims): string { Print(ClaimsJson(c), Ascii) }

  datatype Env = Env(mac: string -> seq<Byte>, loads: seq<Byte> -> Option<Json>)

  /** A digest has 32 bytes, and loading undoes dumping. */
  ghost predicate Fair(e: Env) {
    && (forall s :: |e.mac(s)| == 32)
    && forall v :: IsAscii(Print(v, Ascii)) ==> e.loads(Bytes(Print(v, Ascii))) == Some(v)
  }

  function Sign(e: Env, c: Claims): string {
    PrintIsAscii(ClaimsJson(c), Ascii);
    Encode(Bytes(Payload(c))) + ("." + Encode(e.mac(SignedString(c))))
  }

  datatype Why = Malformed | BadSignature | Expired

  datatype LinkError = LinkError(why: Why, claims: Option<Claims>)

  const MAX_TOKEN_LENGTH: nat := 2048

  function Dots(s: string): nat { if s == "" then 0 else (if s[0] == '.' then 1 else 0) + Dots(s[1..]) }

  function FirstDot(s: string): (i: nat)
    requires Dots(s) > 0
    ensures i < |s| && s[i] == '.'
  {
    if s[0] == '.' then 0 else 1 + FirstDot(s[1..])
  }

  function Verify(e: Env, token: string, now: real): Result<Claims, LinkError> {
    if token == "" || |token| > MAX_TOKEN_LENGTH || Dots(token) != 1 then Failure(LinkError(Malformed, None))
    else
      var i := FirstDot(token);
      var payload, given := Decode(token[..i]), Decode(token[i + 1..]);
      var json := if payload.None? then None else e.loads(payload.value);
      var claims := if json.None? then None else Validated(json.value);
      if claims.None? || given.None? then Failure(LinkError(Malformed, None))
      else if e.mac(SignedString(claims.value)) != given.value then Failure(LinkError(BadSignature, claims))
      else if now >= claims.value.exp as real then Failure(LinkError(Expired, claims))
      else Success(claims.value)
  }

  // --- round trip -----------------------------------------------------------------------------------------------

  lemma {:induction false} OneDot(x: string, y: string)
    requires (forall i :: 0 <= i < |x| ==> x[i] != '.') && forall i :: 0 <= i < |y| ==> y[i] != '.'
    ensures Dots(x + ("." + y)) == 1 && FirstDot(x + ("." + y)) == |x|
    decreases |x|
  {
    var s := x + ("." + y);
    if x == "" {
      assert s[1..] == y;
      NoDots(y);
    } else {
      assert s[1..] == x[1..] + ("." + y);
      OneDot(x[1..], y);
    }
  }

  lemma {:induction false} NoDots(y: string)
    requires forall i :: 0 <= i < |y| ==> y[i] != '.'
    ensures Dots(y) == 0
  {
    if y != "" {
      NoDots(y[1..]);
    }
  }

  /** A token: two base64url texts around exactly one dot. Its length follows from that of the payload. */
  lemma TokenShape(e: Env, c: Claims)
    requires Fair(e)
    ensures var t := Sign(e, c);
            && Dots(t) == 1
            && |t| == (4 * |Payload(c)| + 2) / 3 + 44
            && (|t| <= MAX_TOKEN_LENGTH <==> |Payload(c)| <= 1503)
  {
    hide Encode, Print, SignedString;
    PrintIsAscii(ClaimsJson(c), Ascii);
    EncodeShape(Bytes(Payload(c)));
    EncodeShape(e.mac(SignedString(c)));
    OneDot(Encode(Bytes(Payload(c))), Encode(e.mac(SignedString(c))));
  }

  /** Verifying what was signed gives the claims back exactly when the payload is at most 1503 characters long and the
      link has not expired; otherwise it says why not. */
  lemma VerifySigned(e: Env, c: Claims, now: real)
    requires Fair(e) && Valid(c)
    ensures Verify(e, Sign(e, c), now) ==
            if |Payload(c)| > 1503 then Failure(LinkError(Malformed, None))
            else if now >= c.exp as real then Failure(LinkError(Expired, Some(c)))
            else Success(c)
  {
    hide Encode, Decode, Print, SignedString, Validated, ClaimsJson;
    PrintIsAscii(ClaimsJson(c), Ascii);
    TokenShape(e, c);
    var x, y := Encode(Bytes(Payload(c))), Encode(e.mac(SignedString(c)));
    EncodeShape(Bytes(Payload(c)));
    EncodeShape(e.mac(SignedString(c)));
    OneDot(x, y);
    var t := Sign(e, c);
    assert t[..|x|] == x && t[|x| + 1..] == y;
    RoundTrip(Bytes(Payload(c)));
    RoundTrip(e.mac(SignedString(c)));
    ValidatesItself(c);
  }

  const HEX: string := "0123456789abcdef"

  /** Which claims a link can carry, character by character: any other is signed into a token that is malformed. */
  lemma AcceptedExactly(e: Env, c: Claims, now: real)
    requires Fair(e) && |Payload(c)| <= 1503 && now < c.exp as real
    ensures Verify(e, Sign(e, c), now) ==
            if && |c.runId| == 36 && (forall i :: 0 <= i < 36 ==> c.runId[i] in if i in {8, 13, 18, 23} then "-" else HEX)
               && |c.paramsHash| == 64 && (forall d :: d in c.paramsHash ==> d in HEX)
               && 0 < |c.actionId| < 65 && '|' !in c.actionId && 0 < |c.approver| < 65 && '|' !in c.approver
            then Success(c)
            else Failure(LinkError(Malformed, None))
  {
    hide Verify, Sign, Payload, Valid;
    HexIs(c);
    if Valid(c) {
      VerifySigned(e, c, now);
    } else {
      RefusedIfNotValid(e, c, now);
    }
  }

  lemma HexIs(c: Claims)
    ensures Valid(c) <==>
            && |c.runId| == 36 && (forall i :: 0 <= i < 36 ==> c.runId[i] in if i in {8, 13, 18, 23} then "-" else HEX)
            && |c.paramsHash| == 64 && (forall d :: d in c.paramsHash ==> d in HEX)
            && 0 < |c.actionId| < 65 && '|' !in c.actionId && 0 < |c.approver| < 65 && '|' !in c.approver
  {
    assert forall d: char :: d in HEX <==> '0' <= d <= '9' || 'a' <= d <= 'f';
    assert (forall i :: 0 <= i < |c.paramsHash| ==> c.paramsHash[i] in HEX) <==> forall d :: d in c.paramsHash ==> d in HEX by {
      assert forall i :: 0 <= i < |c.paramsHash| ==> c.paramsHash[i] in c.paramsHash;
    }
    assert HexDigits(c.paramsHash) <==> forall i :: 0 <= i < |c.paramsHash| ==> c.paramsHash[i] in HEX;
    if |c.runId| == 36 {
      assert IsUuid(c.runId) <==> forall i :: 0 <= i < 36 ==> c.runId[i] in if i in {8, 13, 18, 23} then "-" else HEX;
    }
  }

  lemma RefusedIfNotValid(e: Env, c: Claims, now: real)
    requires Fair(e) && !Valid(c)
    ensures Verify(e, Sign(e, c), now) == Failure(LinkError(Malformed, None))
  {
    hide Encode, Decode, Print, SignedString, Validated, ClaimsJson, Valid;
    PrintIsAscii(ClaimsJson(c), Ascii);
    var x, y := Encode(Bytes(Payload(c))), Encode(e.mac(SignedString(c)));
    EncodeShape(Bytes(Payload(c)));
    EncodeShape(e.mac(SignedString(c)));
    OneDot(x, y);
    var t := Sign(e, c);
    assert t[..|x|] == x && t[|x| + 1..] == y;
    RoundTrip(Bytes(Payload(c)));
    RoundTrip(e.mac(SignedString(c)));
    ValidatesItself(c);
  }

  /** ASCII bytes as the text they are, read as JSON. */
  function LoadsAscii(bytes: seq<Byte>): Option<Json> {
    if forall i :: 0 <= i < |bytes| ==> bytes[i] < 128
    then JsonReader.Parse(seq(|bytes|, i requires 0 <= i < |bytes| => bytes[i] as char))
    else None
  }

  /** What is assumed of `loads` is what a reader of JSON does. */
  lemma ReadersAreFair(mac: string -> seq<Byte>)
    requires forall s :: |mac(s)| == 32
    ensures Fair(Env(mac, LoadsAscii))
  {
    forall v | IsAscii(Print(v, Ascii)) ensures LoadsAscii(Bytes(Print(v, Ascii))) == Some(v) {
      hide Print;
      var text := Print(v, Ascii);
      var bytes := Bytes(text);
      JsonReader.ParseReadsBack(v, Ascii);
      assert seq(|bytes|, i requires 0 <= i < |bytes| => bytes[i] as char) == text;
    }
  }

  /** A link that is believed carries the MAC of exactly what it claims, in time. Expiry is looked at last, so an
      unauthenticated one is never reported. */
  lemma BelievedIsAuthentic(e: Env, token: string, now: real)
    ensures var r := Verify(e, token, now);
            && (r.Success? ==> Valid(r.value) && now < r.value.exp as real)
            && (r.Success? || r.error.why == Expired ==>
                  && |token| <= MAX_TOKEN_LENGTH && Dots(token) == 1
                  && (r.Failure? ==> r.error.claims.Some?)
                  && Decode(token[FirstDot(token) + 1..]) ==
                     Some(e.mac(SignedString(if r.Success? then r.value else r.error.claims.value))))
  {
    hide Decode, SignedString, Dots, Validated, Valid, FirstDot;
    if token != "" && |token| <= MAX_TOKEN_LENGTH && Dots(token) == 1 {
      var payload := Decode(token[..FirstDot(token)]);
      var json := if payload.None? then None else e.loads(payload.value);
      if json.Some? {
        ValidatedIsValid(json.value);
      }
    }
  }

  lemma ValidatedIsValid(j: Json)
    ensures Validated(j).Some? ==> Valid(Validated(j).value)
  {
    hide Valid;
  }

  /** The MAC of one link cannot carry another claim, unless the MAC confuses two different signed strings. */
  lemma MacsDoNotTransfer(e: Env, c: Claims, token: string, now: real)
    requires Fair(e) && Valid(c) && Verify(e, token, now).Success?
    requires Decode(token[FirstDot(token) + 1..]) == Some(e.mac(SignedString(c)))
    ensures var d := Verify(e, token, now).value;
            d == c || (SignedString(c) != SignedString(d) && e.mac(SignedString(c)) == e.mac(SignedString(d)))
  {
    hide Decode, SignedString, Dots;
    BelievedIsAuthentic(e, token, now);
    var d := Verify(e, token, now).value;
    if SignedString(c) == SignedString(d) {
      SignedStringsDiffer(c, d);
    }
  }

  // --- which claims fit -----------------------------------------------------------------------------------------

  predicate Plain(s: string) { forall i :: 0 <= i < |s| ==> ' ' <= s[i] <= '~' }

  predicate Astral(s: string) { forall i :: 0 <= i < |s| ==> s[i] as int >= 0x10000 }

  lemma {:induction false} BodyLength(s: string)
    ensures Plain(s) ==> |Body(s, Ascii)| <= 2 * |s| + 1
    ensures Astral(s) ==> |Body(s, Ascii)| == 12 * |s| + 1
  {
    if s != "" {
      BodyLength(s[1..]);
    }
  }

  lemma FieldsLength(v: Json, keys: seq<string>, first: bool)
    requires v.Obj? && keys != [] && forall k :: k in keys ==> k in v.fields
    ensures var one := |Quoted(keys[0], Ascii)| + |Print(v.fields[keys[0]], Ascii)|;
            one + 1 <= |PrintFields(v, keys, first, Ascii)| - |PrintFields(v, keys[1..], false, Ascii)| <= one + 2
  {
    hide Print, Quoted;
  }

  lemma {:induction false} FieldsAtMost(v: Json, keys: seq<string>, first: bool, m: nat)
    requires v.Obj? && forall k :: k in keys ==> k in v.fields && |Quoted(k, Ascii)| + |Print(v.fields[k], Ascii)| <= m
    ensures |PrintFields(v, keys, first, Ascii)| <= |keys| * (m + 2) + 1
    decreases |keys|
  {
    hide Print, Quoted, PrintFields;
    if keys == [] {
      NoFields(v, first);
    } else {
      FieldsLength(v, keys, first);
      FieldsAtMost(v, keys[1..], false, m);
      assert |keys| * (m + 2) == |keys[1..]| * (m + 2) + (m + 2);
    }
  }

  lemma NoFields(v: Json, first: bool)
    requires v.Obj?
    ensures PrintFields(v, [], first, Ascii) == "}"
  {
  }

  /** A field's value is part of the text. */
  lemma {:induction false} FieldsAtLeast(v: Json, keys: seq<string>, first: bool, k: string, l: string)
    requires v.Obj? && (forall j :: j in keys ==> j in v.fields) && k != l
    ensures k in keys ==> |PrintFields(v, keys, first, Ascii)| >= |Print(v.fields[k], Ascii)|
    ensures l in keys ==> |PrintFields(v, keys, first, Ascii)| >= |Print(v.fields[l], Ascii)|
    ensures k in keys && l in keys ==>
              |PrintFields(v, keys, first, Ascii)| >= |Print(v.fields[k], Ascii)| + |Print(v.fields[l], Ascii)|
    decreases |keys|
  {
    hide Print, Quoted, PrintFields;
    if keys != [] {
      FieldsLength(v, keys, first);
      FieldsAtLeast(v, keys[1..], false, k, l);
      assert forall j :: j in keys <==> j == keys[0] || j in keys[1..];
    }
  }

  /** Claims whose names are printable ASCII always fit. */
  lemma PlainClaimsFit(e: Env, c: Claims)
    requires Fair(e) && Valid(c) && Plain(c.actionId) && Plain(c.approver) && |IntText(c.exp)| <= 20
    ensures |Sign(e, c)| <= MAX_TOKEN_LENGTH
  {
    hide SortedKeys, Sign, Body, IntText, ClaimsJson, Valid, PrintFields, Plain;
    var v := ClaimsJson(c);
    SixKeys(c);
    var keys := SortedKeys(v.fields.Keys);
    SortedKeysLength(v.fields.Keys);
    PlainValues(c);
    FieldsAtMost(v, keys, true, 160);
    TokenShape(e, c);
  }

  lemma SixKeys(c: Claims)
    ensures ClaimsJson(c).Obj? && |ClaimsJson(c).fields.Keys| == 6
  {
    assert ClaimsJson(c).fields.Keys == {"run_id", "action_id", "params_hash", "approver", "decision", "exp"};
  }

  lemma PlainText(k: string, s: string)
    requires Plain(k) && Plain(s) && |k| <= 11 && |s| <= 64
    ensures |Quoted(k, Ascii)| <= 24 && |Print(Json.Str(s), Ascii)| <= 130
  {
    BodyLength(k);
    BodyLength(s);
  }

  lemma PlainValues(c: Claims)
    requires Valid(c) && Plain(c.actionId) && Plain(c.approver) && |IntText(c.exp)| <= 20
    ensures forall k :: k in ClaimsJson(c).fields ==>
              |Quoted(k, Ascii)| + |Print(ClaimsJson(c).fields[k], Ascii)| <= 160
  {
    hide Quoted, IntText;
    PlainText("run_id", c.runId);
    PlainText("action_id", c.actionId);
    PlainText("params_hash", c.paramsHash);
    PlainText("approver", c.approver);
    PlainText("decision", ChoiceText(c.choice));
    PlainText("exp", "");
    var m := ClaimsJson(c).fields;
    forall k | k in m ensures |Quoted(k, Ascii)| + |Print(m[k], Ascii)| <= 160 {
      assert k in {"run_id", "action_id", "params_hash", "approver", "decision", "exp"};
    }
  }

  /** But not all claims fit: sixty-four characters outside the basic plane in both names are accepted, signed, and the
      link is then refused as malformed. */
  lemma AstralClaimsDoNotFit(e: Env, c: Claims, now: real)
    requires Fair(e) && Valid(c) && Astral(c.actionId) && Astral(c.approver) && |c.actionId| == 64 && |c.approver| == 64
    ensures Verify(e, Sign(e, c), now) == Failure(LinkError(Malformed, None))
  {
    hide Verify, Sign, Valid, SortedKeys, Body, PrintFields, IntText;
    var v := ClaimsJson(c);
    var keys := SortedKeys(v.fields.Keys);
    BodyLength(c.actionId);
    BodyLength(c.approver);
    FieldsAtLeast(v, keys, true, "action_id", "approver");
    VerifySigned(e, c, now);
  }
}
