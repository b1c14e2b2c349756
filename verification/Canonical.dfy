/** Canonical text: the one form everything that is hashed goes through. */
module Canonical {
  import opened Models
  import opened Order
  import opened Text
  import opened JsonText

  /** A moment in UTC, to the microsecond. */
  datatype Instant = Instant(year: nat, month: nat, day: nat, hour: nat, minute: nat, second: nat, micro: nat) {
    predicate Valid() {
      1 <= month <= 12 && 1 <= day <= 31 && hour < 24 && minute < 60 && second < 60 && micro < 1000000
    }
  }

  datatype DictKey = Name(s: string) | NotText

  datatype Item = Item(key: DictKey, value: Value)

  /** A Python value. Dictionary entries are in insertion order and sets in iteration order. */
  datatype Value =
    | NoneValue
    | Flag(b: bool)
    | Whole(n: int)
    | Chars(s: string)
    | ListOf(items: seq<Value>)
    | DictOf(entries: seq<Item>)
    | SetOf(elements: seq<Value>)
    | Aware(at: Instant)
    | Naive
    | Unsupported

  // --- normalisation --------------------------------------------------------------------------------------------

  function Pad(n: nat, width: nat): string
    decreases width
  {
    if width == 0 then "" else Pad(n / 10, width - 1) + [Digit(n % 10)]
  }

  /** %Y-%m-%dT%H:%M:%S.%fZ */
  function InstantText(t: Instant): string {
    NatText(t.year) + "-" + Pad(t.month, 2) + "-" + Pad(t.day, 2) + "T" + Pad(t.hour, 2) + ":" + Pad(t.minute, 2)
    + ":" + Pad(t.second, 2) + "." + Pad(t.micro, 6) + "Z"
  }

  function SetKey(): Json -> string { (x: Json) => Print(x, Spaced) }

  /** None where the original raises NotCanonicalizable. */
  function Normalise(v: Value): Option<Json>
    decreases v
  {
    match v
    case NoneValue => Some(Json.Null)
    case Flag(b) => Some(Json.Bool(b))
    case Whole(n) => Some(Json.Int(n))
    case Chars(s) => Some(Json.Str(s))
    case ListOf(items) =>
      var r := NormaliseAll(items);
      if r.None? then None else Some(Json.Arr(r.value))
    case DictOf(entries) =>
      var r := NormaliseEntries(entries);
      if r.None? then None else Some(Json.Obj(r.value))
    case SetOf(elements) =>
      var r := NormaliseAll(elements);
      if r.None? then None else Some(Json.Arr(SortBy(r.value, SetKey())))
    case Aware(at) => Some(Json.Str(InstantText(at)))
    case Naive => None
    case Unsupported => None
  }

  function NormaliseAll(vs: seq<Value>): (r: Option<seq<Json>>)
    decreases vs
  {
    if vs == [] then Some([])
    else
      var head, rest := Normalise(vs[0]), NormaliseAll(vs[1..]);
      if head.None? || rest.None? then None else Some([head.value] + rest.value)
  }

  /** A later entry replaces an earlier one of the same name. */
  function NormaliseEntries(es: seq<Item>): Option<map<string, Json>>
    decreases es
  {
    if es == [] then Some(map[])
    else
      var e := es[0];
      assert e.value < e;
      var head, rest := Normalise(e.value), NormaliseEntries(es[1..]);
      if e.key.NotText? || head.None? || rest.None? then None
      else Some(map[e.key.s := head.value] + rest.value)
  }

  function CanonicalText(v: Value): Option<string> {
    var j := Normalise(v);
    if j.None? then None else Some(Print(j.value, Compact))
  }

  // --- the same value of the same type --------------------------------------------------------------------------

  /** The sequence without its element j. */
  function Drop<T>(s: seq<T>, j: nat): (r: seq<T>)
    requires j < |s|
    ensures |r| == |s| - 1 && forall i :: 0 <= i < |r| ==> r[i] == s[if i < j then i else i + 1]
  {
    if j == 0 then s[1..] else [s[0]] + Drop(s[1..], j - 1)
  }

  /** The same value up to the insertion order of dictionaries and the iteration order of sets, at any depth. */
  ghost predicate Alike(v: Value, w: Value)
    decreases v
  {
    match (v, w)
    case (ListOf(a), ListOf(b)) => AlikeList(a, b)
    case (DictOf(a), DictOf(b)) => AlikeEntries(a, b)
    case (SetOf(a), SetOf(b)) => AlikeBag(a, b)
    case _ => v == w
  }

  ghost predicate AlikeList(a: seq<Value>, b: seq<Value>)
    decreases a
  {
    |a| == |b| && (a == [] || (Alike(a[0], b[0]) && AlikeList(a[1..], b[1..])))
  }

  ghost predicate AlikeBag(a: seq<Value>, b: seq<Value>)
    decreases a
  {
    if a == [] then b == []
    else exists j :: 0 <= j < |b| && Alike(a[0], b[j]) && AlikeBag(a[1..], Drop(b, j))
  }

  ghost predicate AlikeEntries(a: seq<Item>, b: seq<Item>)
    decreases a
  {
    if a == [] then b == []
    else
      var e := a[0];
      assert e.value < e;
      exists j :: 0 <= j < |b| && e.key == b[j].key && Alike(e.value, b[j].value) && AlikeEntries(a[1..], Drop(b, j))
  }

  /** What every Python dictionary guarantees. */
  ghost predicate Proper(v: Value)
    decreases v
  {
    match v
    case ListOf(items) => forall i :: 0 <= i < |items| ==> Proper(items[i])
    case SetOf(elements) => forall i :: 0 <= i < |elements| ==> Proper(elements[i])
    case DictOf(es) =>
      && (forall i :: 0 <= i < |es| ==> Proper(es[i].value))
      && Apart(es)
    case _ => true
  }

  ghost predicate Apart(es: seq<Item>) {
    forall i, j :: 0 <= i < j < |es| && es[i].key.Name? ==> es[i].key != es[j].key
  }

  // --- independence of order ------------------------------------------------------------------------------------

  lemma SetKeysApart(js: seq<Json>)
    ensures KeyedApart(js, SetKey())
  {
    forall x, y | x in js && y in js && SetKey()(x) == SetKey()(y) ensures x == y {
      PrintIsInjective(x, y, Spaced);
    }
  }

  lemma Swapped<T>(x: T, y: T, s: multiset<T>)
    ensures multiset{x} + (multiset{y} + s) == multiset{y} + (multiset{x} + s)
  {
  }

  lemma NormaliseAllCons(v: Value, vs: seq<Value>)
    ensures NormaliseAll([v] + vs).Some? <==> Normalise(v).Some? && NormaliseAll(vs).Some?
    ensures NormaliseAll([v] + vs).Some? ==>
              multiset(NormaliseAll([v] + vs).value) == multiset{Normalise(v).value} + multiset(NormaliseAll(vs).value)
  {
    hide Normalise;
    assert ([v] + vs)[0] == v && ([v] + vs)[1..] == vs;
  }

  lemma {:induction false} NormaliseAllDrop(b: seq<Value>, j: nat)
    requires j < |b|
    ensures NormaliseAll(b).Some? <==> Normalise(b[j]).Some? && NormaliseAll(Drop(b, j)).Some?
    ensures NormaliseAll(b).Some? ==>
              multiset(NormaliseAll(b).value) == multiset{Normalise(b[j]).value} + multiset(NormaliseAll(Drop(b, j)).value)
    decreases j
  {
    hide Normalise, NormaliseAll;
    NormaliseAllCons(b[0], b[1..]);
    assert b == [b[0]] + b[1..];
    if j > 0 {
      NormaliseAllDrop(b[1..], j - 1);
      NormaliseAllCons(b[0], Drop(b[1..], j - 1));
      if NormaliseAll(b).Some? {
        Swapped(Normalise(b[0]).value, Normalise(b[j]).value, multiset(NormaliseAll(Drop(b[1..], j - 1)).value));
      }
    }
  }

  lemma NormaliseEntriesCons(e: Item, es: seq<Item>)
    ensures NormaliseEntries([e] + es) ==
            if e.key.NotText? || Normalise(e.value).None? || NormaliseEntries(es).None? then None
            else Some(map[e.key.s := Normalise(e.value).value] + NormaliseEntries(es).value)
  {
    hide Normalise;
    assert ([e] + es)[0] == e && ([e] + es)[1..] == es;
  }

  lemma ApartDrop(b: seq<Item>, j: nat)
    requires j < |b| && Apart(b)
    ensures Apart(Drop(b, j))
    ensures b[j].key.Name? ==> forall i :: 0 <= i < |Drop(b, j)| ==> Drop(b, j)[i].key != b[j].key
  {
  }

  lemma UpdateLater(k: string, x: Json, l: string, y: Json, m: map<string, Json>)
    ensures k != l ==> map[k := x] + m[l := y] == (map[k := x] + m)[l := y]
    ensures k !in m ==> map[k := x] + m == m[k := x]
  {
  }

  lemma {:induction false} NormaliseEntriesDrop(b: seq<Item>, j: nat)
    requires j < |b| && Apart(b)
    ensures Apart(Drop(b, j))
    ensures NormaliseEntries(b).Some? <==>
              b[j].key.Name? && Normalise(b[j].value).Some? && NormaliseEntries(Drop(b, j)).Some?
    ensures NormaliseEntries(b).Some? ==>
              && b[j].key.s !in NormaliseEntries(Drop(b, j)).value
              && NormaliseEntries(b).value == NormaliseEntries(Drop(b, j)).value[b[j].key.s := Normalise(b[j].value).value]
    decreases j
  {
    hide Normalise, NormaliseEntries, Apart;
    ApartDrop(b, 0);
    ApartDrop(b, j);
    NormaliseEntriesCons(b[0], b[1..]);
    assert b == [b[0]] + b[1..];
    if j > 0 {
      NormaliseEntriesDrop(b[1..], j - 1);
      NormaliseEntriesCons(b[0], Drop(b[1..], j - 1));
    }
    if NormaliseEntries(b).Some? {
      EntryNames(Drop(b, j));
      var k, x := b[0].key.s, Normalise(b[0].value).value;
      if j == 0 {
        UpdateLater(k, x, k, x, NormaliseEntries(b[1..]).value);
      } else {
        assert Drop(b, j)[0] == b[0];
        UpdateLater(k, x, b[j].key.s, Normalise(b[j].value).value, NormaliseEntries(Drop(b[1..], j - 1)).value);
      }
    }
  }

  lemma {:induction false} EntryNames(es: seq<Item>)
    requires NormaliseEntries(es).Some?
    ensures forall k :: k in NormaliseEntries(es).value <==> exists i :: 0 <= i < |es| && es[i].key == Name(k)
    decreases |es|
  {
    hide Normalise;
    if es != [] {
      EntryNames(es[1..]);
      var m, rest := NormaliseEntries(es).value, NormaliseEntries(es[1..]).value;
      forall k | k in m ensures exists i :: 0 <= i < |es| && es[i].key == Name(k) {
        if k in rest {
          var i :| 0 <= i < |es[1..]| && es[1..][i].key == Name(k);
          assert es[i + 1].key == Name(k);
        } else {
          assert es[0].key == Name(k);
        }
      }
      forall i | 0 <= i < |es| && es[i].key.Name? ensures es[i].key.s in m {
        if i > 0 {
          assert es[1..][i - 1].key == Name(es[i].key.s);
        }
      }
    }
  }

  /** Values that are alike have one canonical form. */
  lemma {:induction false} AlikeNormalise(v: Value, w: Value)
    requires Alike(v, w) && Proper(v) && Proper(w)
    ensures Normalise(v) == Normalise(w)
    decreases v
  {
    match (v, w) {
      case (ListOf(a), ListOf(b)) => ListNormalise(a, b);
      case (DictOf(a), DictOf(b)) => EntriesNormalise(a, b);
      case (SetOf(a), SetOf(b)) =>
        BagNormalise(a, b);
        if NormaliseAll(a).Some? {
          SetKeysApart(NormaliseAll(a).value);
          SortForgetsOrder(NormaliseAll(a).value, NormaliseAll(b).value, SetKey());
        }
      case _ =>
    }
  }

  lemma {:induction false} ListNormalise(a: seq<Value>, b: seq<Value>)
    requires AlikeList(a, b)
    requires (forall i :: 0 <= i < |a| ==> Proper(a[i])) && forall i :: 0 <= i < |b| ==> Proper(b[i])
    ensures NormaliseAll(a) == NormaliseAll(b)
    decreases a
  {
    hide Normalise, Alike, Proper;
    if a != [] {
      AlikeNormalise(a[0], b[0]);
      ListNormalise(a[1..], b[1..]);
    }
  }

  lemma {:induction false} BagNormalise(a: seq<Value>, b: seq<Value>)
    requires AlikeBag(a, b)
    requires (forall i :: 0 <= i < |a| ==> Proper(a[i])) && forall i :: 0 <= i < |b| ==> Proper(b[i])
    ensures NormaliseAll(a).Some? <==> NormaliseAll(b).Some?
    ensures NormaliseAll(a).Some? ==> multiset(NormaliseAll(a).value) == multiset(NormaliseAll(b).value)
    decreases a
  {
    hide Normalise, Alike, Proper;
    if a != [] {
      var j :| 0 <= j < |b| && Alike(a[0], b[j]) && AlikeBag(a[1..], Drop(b, j));
      AlikeNormalise(a[0], b[j]);
      BagNormalise(a[1..], Drop(b, j));
      NormaliseAllDrop(b, j);
    }
  }

  lemma {:induction false} EntriesNormalise(a: seq<Item>, b: seq<Item>)
    requires AlikeEntries(a, b) && Apart(a) && Apart(b)
    requires (forall i :: 0 <= i < |a| ==> Proper(a[i].value)) && forall i :: 0 <= i < |b| ==> Proper(b[i].value)
    ensures NormaliseEntries(a) == NormaliseEntries(b)
    decreases a
  {
    hide Normalise, Alike, Proper, Apart, NormaliseEntries;
    if a != [] {
      var j :| 0 <= j < |b| && a[0].key == b[j].key && Alike(a[0].value, b[j].value) && AlikeEntries(a[1..], Drop(b, j));
      var e := a[0];
      assert e.value < e;
      AlikeNormalise(e.value, b[j].value);
      NormaliseEntriesDrop(b, j);
      NormaliseEntriesDrop(a, 0);
      assert Drop(a, 0) == a[1..];
      EntriesNormalise(a[1..], Drop(b, j));
    }
  }

  // --- canonical text separates values --------------------------------------------------------------------------

  /** Canonical texts agree exactly when the normal forms do. */
  lemma TextsAgree(v: Value, w: Value)
    ensures CanonicalText(v) == CanonicalText(w) <==> Normalise(v) == Normalise(w)
  {
    if CanonicalText(v) == CanonicalText(w) && Normalise(v).Some? && Normalise(w).Some? {
      PrintIsInjective(Normalise(v).value, Normalise(w).value, Compact);
    }
  }

  /** JSON-native values: null, booleans, integers, strings, lists and string-keyed dictionaries. */
  ghost predicate Native(v: Value)
    decreases v
  {
    match v
    case ListOf(items) => forall i :: 0 <= i < |items| ==> Native(items[i])
    case DictOf(es) => Apart(es) && forall i :: 0 <= i < |es| ==> es[i].key.Name? && Native(es[i].value)
    case SetOf(_) => false
    case Aware(_) => false
    case Naive => false
    case Unsupported => false
    case _ => true
  }

  lemma {:induction false} NativeIsProper(v: Value)
    requires Native(v)
    ensures Proper(v)
    decreases v
  {
    match v {
      case ListOf(items) =>
        forall i | 0 <= i < |items| ensures Proper(items[i]) { NativeIsProper(items[i]); }
      case DictOf(es) =>
        forall i | 0 <= i < |es| ensures Proper(es[i].value) { NativeIsProper(es[i].value); }
      case _ =>
    }
  }

  lemma {:induction false} NativeNormalises(v: Value)
    requires Native(v)
    ensures Normalise(v).Some?
    decreases v
  {
    match v {
      case ListOf(items) => NativesNormalise(items);
      case DictOf(es) => NativeEntriesNormalise(es);
      case _ =>
    }
  }

  lemma {:induction false} NativesNormalise(vs: seq<Value>)
    requires forall i :: 0 <= i < |vs| ==> Native(vs[i])
    ensures NormaliseAll(vs).Some? && |NormaliseAll(vs).value| == |vs|
    decreases vs
  {
    hide Native, Normalise;
    if vs != [] {
      NativeNormalises(vs[0]);
      NativesNormalise(vs[1..]);
    }
  }

  lemma {:induction false} NativeEntriesNormalise(es: seq<Item>)
    requires forall i :: 0 <= i < |es| ==> es[i].key.Name? && Native(es[i].value)
    ensures NormaliseEntries(es).Some?
    decreases es
  {
    hide Native, Normalise;
    if es != [] {
      var e := es[0];
      assert e.value < e;
      NativeNormalises(e.value);
      NativeEntriesNormalise(es[1..]);
    }
  }

  lemma {:induction false} NativeApart(v: Value, w: Value)
    requires Native(v) && Native(w) && Normalise(v) == Normalise(w)
    ensures Alike(v, w)
    decreases v
  {
    NativeNormalises(v);
    match v {
      case ListOf(a) => ListApart(a, w.items);
      case DictOf(a) => EntriesApart(a, w.entries);
      case _ =>
    }
  }

  lemma {:induction false} ListApart(a: seq<Value>, b: seq<Value>)
    requires (forall i :: 0 <= i < |a| ==> Native(a[i])) && forall i :: 0 <= i < |b| ==> Native(b[i])
    requires NormaliseAll(a) == NormaliseAll(b)
    ensures AlikeList(a, b)
    decreases a
  {
    hide Native, Normalise, Alike;
    NativesNormalise(a);
    NativesNormalise(b);
    if a != [] {
      NativesNormalise(a[1..]);
      NativesNormalise(b[1..]);
      var x, y := NormaliseAll(a).value, NormaliseAll(b).value;
      assert x[0] == Normalise(a[0]).value && y[0] == Normalise(b[0]).value;
      assert x[1..] == NormaliseAll(a[1..]).value && y[1..] == NormaliseAll(b[1..]).value;
      NativeApart(a[0], b[0]);
      ListApart(a[1..], b[1..]);
    }
  }

  lemma {:induction false} EntriesApart(a: seq<Item>, b: seq<Item>)
    requires Apart(a) && forall i :: 0 <= i < |a| ==> a[i].key.Name? && Native(a[i].value)
    requires Apart(b) && forall i :: 0 <= i < |b| ==> b[i].key.Name? && Native(b[i].value)
    requires NormaliseEntries(a) == NormaliseEntries(b)
    ensures AlikeEntries(a, b)
    decreases a
  {
    hide Native, Normalise, Alike, NormaliseEntries, Apart;
    NativeEntriesNormalise(a);
    EntryNames(a);
    EntryNames(b);
    var m := NormaliseEntries(a).value;
    assert b != [] ==> b[0].key == Name(b[0].key.s);
    if a != [] {
      var k := a[0].key.s;
      assert k in m;
      var j :| 0 <= j < |b| && b[j].key == Name(k);
      NormaliseEntriesDrop(a, 0);
      NormaliseEntriesDrop(b, j);
      var x, y := NormaliseEntries(Drop(a, 0)).value, NormaliseEntries(Drop(b, j)).value;
      assert m[k] == Normalise(a[0].value).value == Normalise(b[j].value).value;
      assert x == m - {k} == y;
      var e := a[0];
      assert e.value < e;
      NativeApart(e.value, b[j].value);
      assert Drop(a, 0) == a[1..];
      EntriesApart(a[1..], Drop(b, j));
    }
  }

  /** The law of canonical text: on JSON-native values two texts agree exactly when the values are equal, whatever the
      insertion order of their dictionaries. */
  lemma CanonicalTextIsFaithful(v: Value, w: Value)
    requires Native(v) && Native(w)
    ensures CanonicalText(v).Some?
    ensures CanonicalText(v) == CanonicalText(w) <==> Alike(v, w)
  {
    NativeNormalises(v);
    NativeIsProper(v);
    NativeIsProper(w);
    TextsAgree(v, w);
    if Alike(v, w) {
      AlikeNormalise(v, w);
    }
    if CanonicalText(v) == CanonicalText(w) {
      NativeApart(v, w);
    }
  }

  /** Neither insertion order nor iteration order reaches the text, for every value that has one and for those that
      have none. */
  lemma OrderIsForgotten(v: Value, w: Value)
    requires Alike(v, w) && Proper(v) && Proper(w)
    ensures CanonicalText(v) == CanonicalText(w)
  {
    AlikeNormalise(v, w);
  }

  // --- digests --------------------------------------------------------------------------------------------------

  /** Two texts that a hash confuses. */
  predicate Collides(H: string -> string, x: string, y: string) { x != y && H(x) == H(y) }

  function With(m: map<string, Json>, k: string, s: string): map<string, Json> {
    if s == "" then m else m[k := Json.Str(s)]
  }

  function TargetFields(t: Target): map<string, Json> {
    With(With(With(With(With(With(map[], "system", t.system), "subject_id", t.subject), "entitlement", t.entitlement),
                        "repo", t.repo), "permission", t.permission), "origin", t.origin)
  }

  /** What is hashed for an action: its kind and its target, of which only the keys it has are printed. */
  function ParamsJson(p: Params): Json {
    Json.Obj(map["kind" := Json.Str(p.kind), "target" := Json.Obj(TargetFields(p.target))])
  }

  function ParamsHash(H: string -> string, p: Params): string { H(Print(ParamsJson(p), Compact)) }

  function TripleJson(run: string, action: string, paramsHash: string): Json {
    Json.Obj(map["run_id" := Json.Str(run), "action_id" := Json.Str(action), "params_hash" := Json.Str(paramsHash)])
  }

  function IdempotencyKey(H: string -> string, k: Key): string {
    H(Print(TripleJson(NatText(k.run), k.action, ParamsHash(H, k.params)), Compact))
  }

  /** ("ab", "c") and ("a", "bc") never share a text. */
  lemma TriplesPrintApart(r: string, a: string, p: string, s: string, b: string, q: string)
    ensures Print(TripleJson(r, a, p), Compact) == Print(TripleJson(s, b, q), Compact) <==> r == s && a == b && p == q
  {
    var x, y := TripleJson(r, a, p), TripleJson(s, b, q);
    if Print(x, Compact) == Print(y, Compact) {
      PrintIsInjective(x, y, Compact);
      assert x.fields["run_id"] == y.fields["run_id"] && x.fields["action_id"] == y.fields["action_id"] &&
             x.fields["params_hash"] == y.fields["params_hash"];
    }
  }

  predicate Holds(m: map<string, Json>, k: string, s: string) {
    if s == "" then k !in m else k in m && m[k] == Json.Str(s)
  }

  lemma TargetFieldsHold(t: Target)
    ensures var m := TargetFields(t);
            && Holds(m, "system", t.system) && Holds(m, "subject_id", t.subject) && Holds(m, "entitlement", t.entitlement)
            && Holds(m, "repo", t.repo) && Holds(m, "permission", t.permission) && Holds(m, "origin", t.origin)
  {
  }

  lemma ParamsPrintApart(p: Params, q: Params)
    ensures Print(ParamsJson(p), Compact) == Print(ParamsJson(q), Compact) <==> p == q
  {
    hide Print, TargetFields;
    var x, y := ParamsJson(p), ParamsJson(q);
    if Print(x, Compact) == Print(y, Compact) {
      PrintIsInjective(x, y, Compact);
      assert x.fields["kind"] == y.fields["kind"] && x.fields["target"] == y.fields["target"];
      TargetFieldsHold(p.target);
      TargetFieldsHold(q.target);
    }
  }

  /** A digest stands for what was hashed: two actions share an idempotency key only if they are the same action of the
      same run with the same parameters, or the hash has confused two texts that can be named. */
  lemma KeysStandForActions(H: string -> string, k: Key, l: Key)
    requires IdempotencyKey(H, k) == IdempotencyKey(H, l)
    ensures k == l
         || Collides(H, Print(ParamsJson(k.params), Compact), Print(ParamsJson(l.params), Compact))
         || Collides(H, Print(TripleJson(NatText(k.run), k.action, ParamsHash(H, k.params)), Compact),
                        Print(TripleJson(NatText(l.run), l.action, ParamsHash(H, l.params)), Compact))
  {
    hide Print, NatText, ParamsJson, TripleJson;
    NatTextReadsBack(k.run);
    NatTextReadsBack(l.run);
    ParamsPrintApart(k.params, l.params);
    TriplesPrintApart(NatText(k.run), k.action, ParamsHash(H, k.params),
                      NatText(l.run), l.action, ParamsHash(H, l.params));
  }

  // --- moments --------------------------------------------------------------------------------------------------

  lemma {:induction false} PadIsInjective(m: nat, n: nat, width: nat)
    requires Pad(m, width) == Pad(n, width) && m < Power10(width) && n < Power10(width)
    ensures m == n
    decreases width
  {
    if width > 0 {
      var x, y := Pad(m, width), Pad(n, width);
      PadLength(m / 10, width - 1);
      PadLength(n / 10, width - 1);
      assert x[width - 1] == Digit(m % 10) && y[width - 1] == Digit(n % 10);
      assert x[..width - 1] == Pad(m / 10, width - 1) && y[..width - 1] == Pad(n / 10, width - 1);
      PadIsInjective(m / 10, n / 10, width - 1);
    }
  }

  function Power10(n: nat): nat { if n == 0 then 1 else 10 * Power10(n - 1) }

  lemma {:induction false} PadLength(n: nat, width: nat)
    ensures |Pad(n, width)| == width
    decreases width
  {
    if width > 0 {
      PadLength(n / 10, width - 1);
    }
  }

  /** Everything after the year has the same length in every moment. */
  function AfterYear(t: Instant): string {
    "-" + (Pad(t.month, 2) + ("-" + (Pad(t.day, 2) + ("T" + (Pad(t.hour, 2) + (":" + (Pad(t.minute, 2)
    + (":" + (Pad(t.second, 2) + ("." + (Pad(t.micro, 6) + "Z")))))))))))
  }

  lemma InstantSplits(t: Instant)
    ensures InstantText(t) == NatText(t.year) + AfterYear(t)
    ensures |AfterYear(t)| == 23
  {
    hide Pad, NatText;
    PadLength(t.month, 2);
    PadLength(t.day, 2);
    PadLength(t.hour, 2);
    PadLength(t.minute, 2);
    PadLength(t.second, 2);
    PadLength(t.micro, 6);
  }

  lemma AfterYearFields(t: Instant)
    ensures var x := AfterYear(t);
            && |x| == 23 && x[1..3] == Pad(t.month, 2) && x[4..6] == Pad(t.day, 2) && x[7..9] == Pad(t.hour, 2)
            && x[10..12] == Pad(t.minute, 2) && x[13..15] == Pad(t.second, 2) && x[16..22] == Pad(t.micro, 6)
  {
    hide Pad;
    PadLength(t.month, 2);
    PadLength(t.day, 2);
    PadLength(t.hour, 2);
    PadLength(t.minute, 2);
    PadLength(t.second, 2);
    PadLength(t.micro, 6);
  }

  /** Different moments have different texts. */
  lemma InstantTextIsInjective(t: Instant, u: Instant)
    requires t.Valid() && u.Valid() && InstantText(t) == InstantText(u)
    ensures t == u
  {
    hide Pad, InstantText, AfterYear;
    InstantSplits(t);
    InstantSplits(u);
    var n := |InstantText(t)| - 23;
    assert NatText(t.year) == InstantText(t)[..n] == InstantText(u)[..n] == NatText(u.year);
    assert AfterYear(t) == InstantText(t)[n..] == InstantText(u)[n..] == AfterYear(u);
    NatTextReadsBack(t.year);
    NatTextReadsBack(u.year);
    AfterYearFields(t);
    AfterYearFields(u);
    assert Power10(2) == 100 && Power10(6) == 1000000;
    PadIsInjective(t.month, u.month, 2);
    PadIsInjective(t.day, u.day, 2);
    PadIsInjective(t.hour, u.hour, 2);
    PadIsInjective(t.minute, u.minute, 2);
    PadIsInjective(t.second, u.second, 2);
    PadIsInjective(t.micro, u.micro, 6);
  }
}
