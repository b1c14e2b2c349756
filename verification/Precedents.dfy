/** Precedents: human decisions counted from a verified audit chain, per rule and entitlement. */
module Precedents {
  import opened Models
  import opened JsonText
  import opened Canonical
  import opened AuditChain

  type RunKey = (Option<RunId>, ActionId)

  // --- reading the rows -----------------------------------------------------------------------------------------

  function TextAt(j: Json, k: string): Option<string> {
    if j.Obj? && k in j.fields && j.fields[k].Str? then Some(j.fields[k].s) else None
  }

  predicate IsPair(j: Json) { j.Arr? && |j.items| == 2 && j.items[1].Str? }

  /** The rule stage.govern recorded for each action; None where reading the payload raises. */
  function RulesIn(j: Json): Option<map<ActionId, string>> {
    if !j.Obj? then None
    else if "verdicts" !in j.fields then Some(map[])
    else
      var v := j.fields["verdicts"];
      if !v.Obj? || exists a :: a in v.fields && !IsPair(v.fields[a]) then None
      else Some(map a | a in v.fields && IsPair(v.fields[a]) :: v.fields[a].items[1].s)
  }

  predicate IsGovern(r: Row) { r.event == "stage.govern" }

  predicate IsDecided(r: Row) { r.event == "approval.decided" }

  predicate Readable(r: Row) { IsGovern(r) ==> RulesIn(r.payload).Some? }

  function Recorded(rules: map<RunKey, string>, r: Row): map<RunKey, string> {
    var more := RulesIn(r.payload).GetOr(map[]);
    map k: RunKey | k in rules.Keys + (set a | a in more :: (r.run, a)) ::
      if k.0 == r.run && k.1 in more then more[k.1] else if k in rules then rules[k] else ""
  }

  /** The latest rule recorded for every action, in chain order. */
  function RuleOf(rows: seq<Row>): map<RunKey, string> {
    if rows == [] then map[]
    else
      var before := RuleOf(rows[..|rows| - 1]);
      var r := rows[|rows| - 1];
      if IsGovern(r) then Recorded(before, r) else before
  }

  /** A stage.govern row whose payload records this rule for the action. */
  predicate NamesRule(r: Row, action: ActionId, rule: string) {
    && r.event == "stage.govern" && r.payload.Obj? && "verdicts" in r.payload.fields
    && var v := r.payload.fields["verdicts"];
       v.Obj? && action in v.fields && v.fields[action].Arr? && |v.fields[action].items| == 2 && v.fields[action].items[1] == Str(rule)
  }

  ghost predicate NamesSome(r: Row, action: ActionId) { exists rule :: NamesRule(r, action, rule) }

  /** The last stage.govern row of the run that names the action names this rule for it. */
  ghost predicate LastNamed(rows: seq<Row>, k: RunKey, rule: string) {
    exists i :: 0 <= i < |rows| && rows[i].run == k.0 && NamesRule(rows[i], k.1, rule) &&
                forall j :: i < j < |rows| && rows[j].run == k.0 ==> !NamesSome(rows[j], k.1)
  }

  lemma NamesAre(r: Row, action: ActionId, rule: string)
    requires Readable(r)
    ensures NamesRule(r, action, rule) <==>
            IsGovern(r) && action in RulesIn(r.payload).value && RulesIn(r.payload).value[action] == rule
    ensures NamesSome(r, action) <==> IsGovern(r) && action in RulesIn(r.payload).value
  {
    if IsGovern(r) && action in RulesIn(r.payload).value {
      assert NamesRule(r, action, RulesIn(r.payload).value[action]);
    }
  }

  /** Whose rule the map holds: of a run that was started over, the latest. An action that no govern row of its run names has
      none. */
  lemma {:induction false} RuleIsTheLastNamed(rows: seq<Row>, k: RunKey, rule: string)
    requires forall r :: r in rows ==> Readable(r)
    ensures k in RuleOf(rows) && RuleOf(rows)[k] == rule <==> LastNamed(rows, k, rule)
    ensures k !in RuleOf(rows) <==> forall i :: 0 <= i < |rows| && rows[i].run == k.0 ==> !NamesSome(rows[i], k.1)
    decreases |rows|
  {
    hide RulesIn, NamesRule, IsGovern, NamesSome;
    if rows != [] {
      var n := |rows| - 1;
      var before, r := rows[..n], rows[n];
      RuleIsTheLastNamed(before, k, rule);
      assert r in rows;
      NamesAre(r, k.1, rule);
      assert forall i :: 0 <= i < n ==> before[i] == rows[i];
      NamedLast(rows, k, rule);
    }
  }

  lemma NamedLast(rows: seq<Row>, k: RunKey, rule: string)
    requires rows != []
    ensures var n := |rows| - 1;
            LastNamed(rows, k, rule) <==>
              if rows[n].run == k.0 && NamesSome(rows[n], k.1) then NamesRule(rows[n], k.1, rule) else LastNamed(rows[..n], k, rule)
  {
    hide NamesRule;
    var n := |rows| - 1;
    var before := rows[..n];
    assert forall i :: 0 <= i < n ==> before[i] == rows[i];
    if LastNamed(rows, k, rule) {
      var i :| 0 <= i < |rows| && rows[i].run == k.0 && NamesRule(rows[i], k.1, rule) &&
               forall j :: i < j < |rows| && rows[j].run == k.0 ==> !NamesSome(rows[j], k.1);
      if i < n {
        assert before[i] == rows[i];
      }
    }
    if LastNamed(before, k, rule) && !(rows[n].run == k.0 && NamesSome(rows[n], k.1)) {
      var i :| 0 <= i < |before| && before[i].run == k.0 && NamesRule(before[i], k.1, rule) &&
               forall j :: i < j < |before| && before[j].run == k.0 ==> !NamesSome(before[j], k.1);
      assert rows[i] == before[i];
      forall j | i < j < |rows| && rows[j].run == k.0 ensures !NamesSome(rows[j], k.1) {
        if j < n {
          assert before[j] == rows[j];
        }
      }
    }
    if rows[n].run == k.0 && NamesRule(rows[n], k.1, rule) {
      assert NamesSome(rows[n], k.1);
    }
  }

  /** A decision row as the chain holds it; its payload is read only as far as it is needed. */
  datatype Counted = Counted(seqNo: int, run: Option<RunId>, payload: Json, at: Instant)

  function CountedOf(r: Row): Counted { Counted(r.seqNo, r.run, r.payload, r.at) }

  function DecidedRows(rows: seq<Row>): seq<Counted> {
    if rows == [] then []
    else DecidedRows(rows[..|rows| - 1]) + if IsDecided(rows[|rows| - 1]) then [CountedOf(rows[|rows| - 1])] else []
  }

  // --- attributing a decision -----------------------------------------------------------------------------------

  datatype Skip = NoGovernEvent | ParamsChanged

  datatype Ctx = Ctx(H: string -> string, rules: map<RunKey, string>, actions: map<RunKey, Params>)

  function EntitlementText(p: Params): string { if p.target.entitlement == "" then "None" else p.target.entitlement }

  /** The payload names an action: any scalar may stand there, but only a string can be an action's id. */
  predicate NamesAction(d: Counted) {
    d.payload.Obj? && "action_id" in d.payload.fields && !d.payload.fields["action_id"].Arr? && !d.payload.fields["action_id"].Obj?
  }

  function ActionOf(d: Counted): Option<RunKey> {
    if TextAt(d.payload, "action_id").Some? then Some((d.run, TextAt(d.payload, "action_id").value)) else None
  }

  predicate HasRule(c: Ctx, d: Counted) { ActionOf(d).Some? && ActionOf(d).value in c.rules }

  /** Where a decision is counted: the rule the chain records and the entitlement of the action it was bound to. */
  function Attributed(c: Ctx, d: Counted): Result<string, Skip> {
    if !HasRule(c, d) then Failure(NoGovernEvent)
    else
      var k := ActionOf(d).value;
      if k !in c.actions || TextAt(d.payload, "params_hash") != Some(ParamsHash(c.H, c.actions[k])) then Failure(ParamsChanged)
      else Success(c.rules[k] + "|" + EntitlementText(c.actions[k]))
  }

  function ChoiceOf(d: Counted): string { TextAt(d.payload, "decision").GetOr("") }

  /** Each field is read where it is needed: the action always, the params_hash once rule and action are known, and what is
      counted only of a decision that is attributed. */
  predicate Countable(c: Ctx, d: Counted) {
    && NamesAction(d)
    && (HasRule(c, d) && ActionOf(d).value in c.actions ==> "params_hash" in d.payload.fields)
    && (Attributed(c, d).Success? ==>
          ChoiceOf(d) in {"approved", "refused"} && TextAt(d.payload, "approver").Some? && TextAt(d.payload, "channel").Some?)
  }

  ghost predicate AllCountable(c: Ctx, ds: seq<Counted>) { forall d :: d in ds ==> Countable(c, d) }

  /** The decisions counted under one key, in chain order. */
  function ForKey(c: Ctx, ds: seq<Counted>, k: string): seq<Counted> {
    if ds == [] then []
    else
      var d := ds[|ds| - 1];
      ForKey(c, ds[..|ds| - 1], k) + if Attributed(c, d) == Success(k) then [d] else []
  }

  function SkippedOf(c: Ctx, ds: seq<Counted>): seq<(int, Skip)> {
    if ds == [] then []
    else
      var d := ds[|ds| - 1];
      SkippedOf(c, ds[..|ds| - 1]) + if Attributed(c, d).Failure? then [(d.seqNo, Attributed(c, d).error)] else []
  }

  // --- the book -------------------------------------------------------------------------------------------------

  datatype Precedent = Precedent(approved: nat, refused: nat, cites: seq<int>, decisions: seq<Counted>)

  datatype Book = Book(entries: map<string, Precedent>, chainRows: nat, skipped: seq<(int, Skip)>)

  datatype Problem = ChainBroken(check: ChainCheck) | Malformed

  function CountChoice(ds: seq<Counted>, choice: string): nat {
    if ds == [] then 0 else CountChoice(ds[..|ds| - 1], choice) + if ChoiceOf(ds[|ds| - 1]) == choice then 1 else 0
  }

  function Cites(ds: seq<Counted>): seq<int> { seq(|ds|, i requires 0 <= i < |ds| => ds[i].seqNo) }

  function Summary(ds: seq<Counted>): Precedent {
    Precedent(CountChoice(ds, "approved"), CountChoice(ds, "refused"), Cites(ds), ds)
  }

  /** The attributed decisions of the chain, grouped by key, and the rest skipped. */
  ghost predicate BookOf(c: Ctx, decided: seq<Counted>, b: Book) {
    && AllCountable(c, decided)
    && b.skipped == SkippedOf(c, decided)
    && (forall k :: k in b.entries <==> ForKey(c, decided, k) != [])
    && (forall k :: k in b.entries ==> b.entries[k] == Summary(ForKey(c, decided, k)))
  }

  /** A broken chain yields nothing. Otherwise the entries are the attributed decisions of the chain, grouped, unless a
      row cannot be read as far as it is needed: a govern row's verdicts, or what Countable says of a decision. */
  method ComputePrecedents(H: string -> string, rows: seq<Row>, actions: map<RunKey, Params>) returns (r: Result<Book, Problem>)
    ensures !Accepted(H, rows) <==> r.Failure? && r.error.ChainBroken?
    ensures r.Success? ==> forall x :: x in rows ==> Readable(x)
    ensures r.Success? ==>
              var c := Ctx(H, RuleOf(rows), actions);
              var decided := DecidedRows(rows);
              BookOf(c, decided, r.value) && r.value.chainRows == |rows|
    ensures r.Success? ==>
              forall k, d :: k in r.value.entries && d in r.value.entries[k].decisions <==> StandsUnder(H, rows, actions, d, k)
    ensures r.Failure? && r.error.Malformed? <==>
              Accepted(H, rows) &&
              ((exists x :: x in rows && !Readable(x)) ||
               !AllCountable(Ctx(H, RuleOf(rows), actions), DecidedRows(rows)))
  {
    hide RulesIn, Countable, ParamsHash, LinkHolds, StandsUnder;
    var check := VerifyChain(H, rows);
    if check.Broken? {
      return Failure(ChainBroken(check));
    }
    var ruleOf: map<RunKey, string> := map[];
    var decided: seq<Counted> := [];
    for i := 0 to |rows|
      invariant forall x :: x in rows[..i] ==> Readable(x)
      invariant ruleOf == RuleOf(rows[..i]) && decided == DecidedRows(rows[..i])
    {
      assert rows[..i + 1][..i] == rows[..i] && rows[..i + 1] == rows[..i] + [rows[i]];
      if IsGovern(rows[i]) && RulesIn(rows[i].payload).None? {
        assert rows[i] in rows && !Readable(rows[i]);
        return Failure(Malformed);
      }
      if IsGovern(rows[i]) {
        ruleOf := Recorded(ruleOf, rows[i]);
      } else if IsDecided(rows[i]) {
        decided := decided + [CountedOf(rows[i])];
      }
    }
    assert rows[..|rows|] == rows;
    r := Tally(Ctx(H, ruleOf, actions), decided, check.rows);
    if r.Success? {
      forall k, d ensures k in r.value.entries && d in r.value.entries[k].decisions <==> StandsUnder(H, rows, actions, d, k) {
        BookMeans(H, rows, actions, r.value, d, k);
      }
    }
  }

  method Tally(c: Ctx, decided: seq<Counted>, chainRows: nat) returns (r: Result<Book, Problem>)
    ensures r.Failure? <==> !AllCountable(c, decided)
    ensures r.Failure? ==> r.error == Malformed
    ensures r.Success? ==> BookOf(c, decided, r.value) && r.value.chainRows == chainRows
  {
    hide Attributed;
    var counted: map<string, seq<Counted>> := map[];
    var skipped: seq<(int, Skip)> := [];
    for i := 0 to |decided|
      invariant AllCountable(c, decided[..i])
      invariant skipped == SkippedOf(c, decided[..i])
      invariant forall k :: k in counted <==> ForKey(c, decided[..i], k) != []
      invariant forall k :: k in counted ==> counted[k] == ForKey(c, decided[..i], k)
    {
      var x := decided[i];
      assert decided[..i + 1][..i] == decided[..i] && decided[..i + 1] == decided[..i] + [x];
      if !Countable(c, x) {
        assert x in decided;
        return Failure(Malformed);
      }
      match Attributed(c, x) {
        case Failure(why) =>
          skipped := skipped + [(x.seqNo, why)];
        case Success(k) =>
          counted := counted[k := (if k in counted then counted[k] else []) + [x]];
      }
    }
    assert decided[..|decided|] == decided;
    return Success(Book(map k | k in counted :: Summary(counted[k]), chainRows, skipped));
  }

  // --- conservation ---------------------------------------------------------------------------------------------

  ghost function Pick(keys: set<string>): string
    requires keys != {}
  {
    var k :| k in keys;
    k
  }

  /** approved + refused, over all entries. */
  ghost function Total(entries: map<string, Precedent>, keys: set<string>): nat
    requires forall k :: k in keys ==> k in entries
    decreases |keys|
  {
    if keys == {} then 0
    else
      var k := Pick(keys);
      entries[k].approved + entries[k].refused + Total(entries, keys - {k})
  }

  ghost function Sum(c: Ctx, decided: seq<Counted>, keys: set<string>): nat
    decreases |keys|
  {
    if keys == {} then 0 else |ForKey(c, decided, Pick(keys))| + Sum(c, decided, keys - {Pick(keys)})
  }

  lemma {:induction false} SumGrows(c: Ctx, decided: seq<Counted>, keys: set<string>)
    requires decided != []
    ensures var r := decided[|decided| - 1];
            Sum(c, decided, keys) == Sum(c, decided[..|decided| - 1], keys) +
              if Attributed(c, r).Success? && Attributed(c, r).value in keys then 1 else 0
    decreases |keys|
  {
    hide Attributed;
    if keys != {} {
      SumGrows(c, decided, keys - {Pick(keys)});
    }
  }

  lemma {:induction false} NothingToSum(c: Ctx, keys: set<string>)
    ensures Sum(c, [], keys) == 0
    decreases |keys|
  {
    if keys != {} {
      NothingToSum(c, keys - {Pick(keys)});
    }
  }

  lemma {:induction false} SumAndSkipped(c: Ctx, decided: seq<Counted>, keys: set<string>)
    requires forall r :: r in decided && Attributed(c, r).Success? ==> Attributed(c, r).value in keys
    ensures Sum(c, decided, keys) + |SkippedOf(c, decided)| == |decided|
    decreases |decided|
  {
    hide Attributed, Sum;
    if decided == [] {
      NothingToSum(c, keys);
    } else {
      SumGrows(c, decided, keys);
      SumAndSkipped(c, decided[..|decided| - 1], keys);
    }
  }

  lemma {:induction false} CountedAt(c: Ctx, decided: seq<Counted>, k: string)
    ensures forall d :: d in ForKey(c, decided, k) <==>
              exists i :: 0 <= i < |decided| && Attributed(c, decided[i]) == Success(k) && d == decided[i]
    decreases |decided|
  {
    hide Attributed;
    if decided != [] {
      var n := |decided| - 1;
      CountedAt(c, decided[..n], k);
      forall d ensures d in ForKey(c, decided, k) <==>
          exists i :: 0 <= i < |decided| && Attributed(c, decided[i]) == Success(k) && d == decided[i] {
        if i :| 0 <= i < |decided| && Attributed(c, decided[i]) == Success(k) && d == decided[i] {
          assert i < n ==> decided[..n][i] == decided[i];
        }
        if d in ForKey(c, decided[..n], k) {
          var i :| 0 <= i < n && Attributed(c, decided[..n][i]) == Success(k) && d == decided[..n][i];
          assert decided[i] == decided[..n][i];
        }
      }
    }
  }

  lemma {:induction false} ChoicesCount(ds: seq<Counted>)
    requires forall d :: d in ds ==> ChoiceOf(d) in {"approved", "refused"}
    ensures CountChoice(ds, "approved") + CountChoice(ds, "refused") == |ds|
    decreases |ds|
  {
    if ds != [] {
      ChoicesCount(ds[..|ds| - 1]);
    }
  }

  lemma ForKeyChoices(c: Ctx, decided: seq<Counted>, k: string)
    requires AllCountable(c, decided)
    ensures CountChoice(ForKey(c, decided, k), "approved") + CountChoice(ForKey(c, decided, k), "refused") ==
            |ForKey(c, decided, k)|
  {
    hide Attributed;
    CountedAt(c, decided, k);
    forall d | d in ForKey(c, decided, k) ensures ChoiceOf(d) in {"approved", "refused"} {
      assert d in decided && Countable(c, d);
    }
    ChoicesCount(ForKey(c, decided, k));
  }

  lemma {:induction false} TotalIsSum(c: Ctx, decided: seq<Counted>, entries: map<string, Precedent>, keys: set<string>)
    requires AllCountable(c, decided)
    requires forall k :: k in keys ==> k in entries && entries[k] == Summary(ForKey(c, decided, k))
    ensures Total(entries, keys) == Sum(c, decided, keys)
    decreases |keys|
  {
    if keys != {} {
      ForKeyChoices(c, decided, Pick(keys));
      TotalIsSum(c, decided, entries, keys - {Pick(keys)});
    }
  }

  /** Nothing is lost and nothing is invented: approved plus refused over all entries, plus the number skipped, is the
      number of approval.decided rows in the chain. */
  lemma PrecedentsAreConserved(c: Ctx, decided: seq<Counted>, b: Book)
    requires BookOf(c, decided, b)
    ensures Total(b.entries, b.entries.Keys) + |b.skipped| == |decided|
  {
    hide Attributed;
    forall r | r in decided && Attributed(c, r).Success? ensures Attributed(c, r).value in b.entries.Keys {
      var k := Attributed(c, r).value;
      CountedAt(c, decided, k);
      var i :| 0 <= i < |decided| && decided[i] == r;
      assert decided[i] in ForKey(c, decided, k);
    }
    SumAndSkipped(c, decided, b.entries.Keys);
    TotalIsSum(c, decided, b.entries, b.entries.Keys);
  }

  /** Every counted decision is a row of the chain whose action still hashes to the params_hash it was bound to, under
      the rule the chain recorded; and no row is counted in two entries. */
  lemma CountsAreAttributed(c: Ctx, decided: seq<Counted>, b: Book, k: string, d: Counted)
    requires BookOf(c, decided, b) && k in b.entries && d in b.entries[k].decisions
    requires forall i, j :: 0 <= i < j < |decided| ==> decided[i].seqNo != decided[j].seqNo
    ensures d in decided
    ensures var key := ActionOf(d).GetOr((None, ""));
            && ActionOf(d) == Some(key) && key in c.rules && key in c.actions
            && TextAt(d.payload, "params_hash") == Some(ParamsHash(c.H, c.actions[key]))
            && k == c.rules[key] + "|" + EntitlementText(c.actions[key])
    ensures forall l, e :: l in b.entries && e in b.entries[l].decisions && e.seqNo == d.seqNo ==> l == k && e == d
  {
    hide ParamsHash;
    CountedAt(c, decided, k);
    var i :| 0 <= i < |decided| && Attributed(c, decided[i]) == Success(k) && d == decided[i];
    forall l, e | l in b.entries && e in b.entries[l].decisions && e.seqNo == d.seqNo ensures l == k && e == d {
      CountedAt(c, decided, l);
      var j :| 0 <= j < |decided| && Attributed(c, decided[j]) == Success(l) && e == decided[j];
      assert decided[i].seqNo == decided[j].seqNo;
    }
  }

  // --- what a book says of its chain ----------------------------------------------------------------------------

  lemma {:induction false} DecidedRowsAre(rows: seq<Row>, d: Counted)
    ensures d in DecidedRows(rows) <==>
            exists i :: 0 <= i < |rows| && rows[i].event == "approval.decided" &&
                        d == Counted(rows[i].seqNo, rows[i].run, rows[i].payload, rows[i].at)
    decreases |rows|
  {
    if rows != [] {
      var n := |rows| - 1;
      DecidedRowsAre(rows[..n], d);
      assert forall i :: 0 <= i < n ==> rows[..n][i] == rows[i];
      if d in DecidedRows(rows[..n]) {
        var i :| 0 <= i < n && rows[..n][i].event == "approval.decided" &&
                 d == Counted(rows[..n][i].seqNo, rows[..n][i].run, rows[..n][i].payload, rows[..n][i].at);
        assert rows[i] == rows[..n][i];
      }
    }
  }

  /** The decision is bound to action a of its run. */
  predicate About(d: Counted, a: ActionId) {
    d.payload.Obj? && "action_id" in d.payload.fields && d.payload.fields["action_id"] == Str(a)
  }

  /** The decision carries the hash of the action as it is. */
  predicate Binds(H: string -> string, actions: map<RunKey, Params>, d: Counted, a: ActionId) {
    && (d.run, a) in actions && d.payload.Obj? && "params_hash" in d.payload.fields
    && d.payload.fields["params_hash"] == Str(ParamsHash(H, actions[(d.run, a)]))
  }

  /** A decision row of the chain, for an action that still has the parameters that were decided, under the rule that the last
      govern row of its run names for the action. */
  ghost predicate CountsUnder(H: string -> string, rows: seq<Row>, actions: map<RunKey, Params>, d: Counted, a: ActionId, rule: string) {
    && (exists i :: 0 <= i < |rows| && rows[i].event == "approval.decided" &&
          d == Counted(rows[i].seqNo, rows[i].run, rows[i].payload, rows[i].at))
    && About(d, a) && LastNamed(rows, (d.run, a), rule) && Binds(H, actions, d, a)
  }

  /** ... and the entry it belongs in: its rule and the entitlement of its action. */
  ghost predicate StandsUnder(H: string -> string, rows: seq<Row>, actions: map<RunKey, Params>, d: Counted, k: string) {
    exists a, rule :: CountsUnder(H, rows, actions, d, a, rule) &&
      k == rule + "|" + (if actions[(d.run, a)].target.entitlement == "" then "None" else actions[(d.run, a)].target.entitlement)
  }

  lemma AttributedMeans(H: string -> string, rows: seq<Row>, actions: map<RunKey, Params>, d: Counted, a: ActionId, rule: string)
    requires forall r :: r in rows ==> Readable(r)
    requires About(d, a)
    ensures var c := Ctx(H, RuleOf(rows), actions);
            && (LastNamed(rows, (d.run, a), rule) && Binds(H, actions, d, a) ==>
                  Attributed(c, d) == Success(rule + "|" + (if actions[(d.run, a)].target.entitlement == "" then "None"
                                                           else actions[(d.run, a)].target.entitlement)))
            && (Attributed(c, d) == Failure(NoGovernEvent) <==> (d.run, a) !in RuleOf(rows))
            && (Attributed(c, d) == Failure(ParamsChanged) <==> (d.run, a) in RuleOf(rows) && !Binds(H, actions, d, a))
  {
    hide RuleOf, ParamsHash, LastNamed;
    RuleIsTheLastNamed(rows, (d.run, a), rule);
  }

  /** What stands in a book: under each key exactly the decisions of the chain that count under it; the numbers approved and
      refused; and what was skipped, because no govern row names the action or because its parameters changed. */
  lemma BookMeans(H: string -> string, rows: seq<Row>, actions: map<RunKey, Params>, b: Book, d: Counted, k: string)
    requires forall r :: r in rows ==> Readable(r)
    requires BookOf(Ctx(H, RuleOf(rows), actions), DecidedRows(rows), b)
    ensures k in b.entries && d in b.entries[k].decisions <==> StandsUnder(H, rows, actions, d, k)
  {
    hide RuleOf, ParamsHash, LastNamed, Attributed, DecidedRows, RulesIn;
    var c, decided := Ctx(H, RuleOf(rows), actions), DecidedRows(rows);
    CountedAt(c, decided, k);
    DecidedRowsAre(rows, d);
    if d in decided && Attributed(c, d) == Success(k) {
      AttributedIs(c, d, k);
      var a := ActionOf(d).value.1;
      AboutIs(d, a);
      RuleIsTheLastNamed(rows, (d.run, a), c.rules[(d.run, a)]);
      assert CountsUnder(H, rows, actions, d, a, c.rules[(d.run, a)]);
    }
    forall a, rule | CountsUnder(H, rows, actions, d, a, rule)
      ensures Attributed(c, d) == Success(rule + "|" + (if actions[(d.run, a)].target.entitlement == "" then "None"
                                                       else actions[(d.run, a)].target.entitlement))
    {
      AttributedMeans(H, rows, actions, d, a, rule);
    }
    InForKey(c, decided, d, k);
  }

  lemma AttributedIs(c: Ctx, d: Counted, k: string)
    requires Attributed(c, d) == Success(k)
    ensures ActionOf(d).Some? && ActionOf(d).value.0 == d.run && ActionOf(d).value in c.rules && ActionOf(d).value in c.actions
    ensures var key := ActionOf(d).value;
            && Binds(c.H, c.actions, d, key.1)
            && k == c.rules[key] + "|" + (if c.actions[key].target.entitlement == "" then "None" else c.actions[key].target.entitlement)
  {
    hide ParamsHash;
  }

  lemma AboutIs(d: Counted, a: ActionId)
    ensures About(d, a) <==> ActionOf(d) == Some((d.run, a))
  {
  }

  lemma InForKey(c: Ctx, decided: seq<Counted>, d: Counted, k: string)
    ensures d in ForKey(c, decided, k) <==> d in decided && Attributed(c, d) == Success(k)
  {
    hide Attributed;
    CountedAt(c, decided, k);
    if d in decided {
      var i :| 0 <= i < |decided| && decided[i] == d;
    }
  }

  lemma {:induction false} SkippedAre(c: Ctx, ds: seq<Counted>, n: int, why: Skip)
    ensures (n, why) in SkippedOf(c, ds) <==> exists d :: d in ds && d.seqNo == n && Attributed(c, d) == Failure(why)
    decreases |ds|
  {
    hide Attributed;
    if ds != [] {
      var last := |ds| - 1;
      SkippedAre(c, ds[..last], n, why);
      assert forall d :: d in ds <==> d in ds[..last] || d == ds[last];
    }
  }

  /** What is skipped, and why. */
  lemma SkippedMeans(H: string -> string, rows: seq<Row>, actions: map<RunKey, Params>, b: Book, n: int)
    requires forall r :: r in rows ==> Readable(r)
    requires BookOf(Ctx(H, RuleOf(rows), actions), DecidedRows(rows), b)
    ensures (n, NoGovernEvent) in b.skipped <==>
            exists d :: d in DecidedRows(rows) && d.seqNo == n && forall a, rule :: About(d, a) ==> !LastNamed(rows, (d.run, a), rule)
    ensures (n, ParamsChanged) in b.skipped <==>
            exists d :: d in DecidedRows(rows) && d.seqNo == n &&
              exists a, rule :: About(d, a) && LastNamed(rows, (d.run, a), rule) && !Binds(H, actions, d, a)
  {
    hide RuleOf, ParamsHash, LastNamed, Attributed, DecidedRows, RulesIn;
    var c, decided := Ctx(H, RuleOf(rows), actions), DecidedRows(rows);
    SkippedAre(c, decided, n, NoGovernEvent);
    SkippedAre(c, decided, n, ParamsChanged);
    forall d | d in decided
      ensures Attributed(c, d) == Failure(NoGovernEvent) <==> forall a, rule :: About(d, a) ==> !LastNamed(rows, (d.run, a), rule)
      ensures Attributed(c, d) == Failure(ParamsChanged) <==>
              exists a, rule :: About(d, a) && LastNamed(rows, (d.run, a), rule) && !Binds(H, actions, d, a)
    {
      WhySkipped(H, rows, actions, d);
    }
  }

  lemma WhySkipped(H: string -> string, rows: seq<Row>, actions: map<RunKey, Params>, d: Counted)
    requires forall r :: r in rows ==> Readable(r)
    ensures var c := Ctx(H, RuleOf(rows), actions);
            && (Attributed(c, d) == Failure(NoGovernEvent) <==> forall a, rule :: About(d, a) ==> !LastNamed(rows, (d.run, a), rule))
            && (Attributed(c, d) == Failure(ParamsChanged) <==>
                  exists a, rule :: About(d, a) && LastNamed(rows, (d.run, a), rule) && !Binds(H, actions, d, a))
  {
    hide RuleOf, ParamsHash, LastNamed, RulesIn, Binds, About, NamesSome;
    var c := Ctx(H, RuleOf(rows), actions);
    if ActionOf(d).Some? {
      var a := ActionOf(d).value.1;
      AboutIs(d, a);
      forall x | About(d, x) ensures x == a { AboutIs(d, x); }
      forall rule ensures (d.run, a) in RuleOf(rows) && RuleOf(rows)[(d.run, a)] == rule <==> LastNamed(rows, (d.run, a), rule) {
        RuleIsTheLastNamed(rows, (d.run, a), rule);
      }
      AttributedMeans(H, rows, actions, d, a, "");
      if (d.run, a) in RuleOf(rows) {
        assert LastNamed(rows, (d.run, a), RuleOf(rows)[(d.run, a)]);
      }
    } else {
      forall x ensures !About(d, x) { AboutIs(d, x); }
    }
  }

  /** The decision row says so. */
  predicate Says(d: Counted, choice: string) {
    d.payload.Obj? && "decision" in d.payload.fields && d.payload.fields["decision"] == Str(choice)
  }

  lemma ChoiceIs(d: Counted, choice: string)
    requires choice != ""
    ensures Says(d, choice) <==> ChoiceOf(d) == choice
  {
  }

  lemma {:induction false} ChoicesAre(ds: seq<Counted>, choice: string)
    requires choice != ""
    ensures CountChoice(ds, choice) == |set i | 0 <= i < |ds| && Says(ds[i], choice)|
    decreases |ds|
  {
    hide Says, ChoiceOf;
    if ds != [] {
      var n := |ds| - 1;
      ChoicesAre(ds[..n], choice);
      ChoiceIs(ds[n], choice);
      var before := set i | 0 <= i < |ds[..n]| && Says(ds[..n][i], choice);
      var all := set i | 0 <= i < |ds| && Says(ds[i], choice);
      if n in all {
        assert all == before + {n};
      } else {
        assert all == before;
      }
    }
  }

  /** The numbers of an entry are those of its decisions, and its citations are their rows. */
  lemma EntriesCount(c: Ctx, decided: seq<Counted>, b: Book, k: string)
    requires BookOf(c, decided, b) && k in b.entries
    ensures var e := b.entries[k];
            && e.approved == |set i | 0 <= i < |e.decisions| && Says(e.decisions[i], "approved")|
            && e.refused == |set i | 0 <= i < |e.decisions| && Says(e.decisions[i], "refused")|
            && |e.cites| == |e.decisions| && forall i :: 0 <= i < |e.cites| ==> e.cites[i] == e.decisions[i].seqNo
  {
    hide AllCountable, CountChoice, Says;
    ChoicesAre(b.entries[k].decisions, "approved");
    ChoicesAre(b.entries[k].decisions, "refused");
  }

  // --- when there is no book ------------------------------------------------------------------------------------

  /** A govern row cannot be read exactly when its payload is no object, or has verdicts that are not an object of pairs which
      end in a rule. A payload without verdicts names no rule. */
  lemma UnreadableExactly(r: Row)
    ensures !Readable(r) <==>
            r.event == "stage.govern" &&
            (!r.payload.Obj? || ("verdicts" in r.payload.fields &&
               (!r.payload.fields["verdicts"].Obj? ||
                exists a :: a in r.payload.fields["verdicts"].fields &&
                  !(exists x, rule :: r.payload.fields["verdicts"].fields[a] == Arr([x, Str(rule)])))))
  {
    if r.payload.Obj? && "verdicts" in r.payload.fields && r.payload.fields["verdicts"].Obj? {
      var v := r.payload.fields["verdicts"];
      forall a | a in v.fields ensures IsPair(v.fields[a]) <==> exists x, rule :: v.fields[a] == Arr([x, Str(rule)]) {
        if IsPair(v.fields[a]) {
          assert v.fields[a] == Arr([v.fields[a].items[0], Str(v.fields[a].items[1].s)]);
        }
      }
    }
  }

  predicate IsText(j: Json, k: string) { j.Obj? && k in j.fields && j.fields[k].Str? }

  /** A decision stops the count exactly when it lacks its action; or, where a rule and a row of that action are known, the hash
      it was bound to; or, where that hash is still the action's, a decision, an approver or a channel. */
  lemma CountableExactly(H: string -> string, rows: seq<Row>, actions: map<RunKey, Params>, d: Counted)
    requires forall r :: r in rows ==> Readable(r)
    ensures Countable(Ctx(H, RuleOf(rows), actions), d) <==>
            && d.payload.Obj? && "action_id" in d.payload.fields
            && !d.payload.fields["action_id"].Arr? && !d.payload.fields["action_id"].Obj?
            && forall a, rule :: About(d, a) && LastNamed(rows, (d.run, a), rule) && (d.run, a) in actions ==>
                 && "params_hash" in d.payload.fields
                 && (Binds(H, actions, d, a) ==>
                       && IsText(d.payload, "approver") && IsText(d.payload, "channel") && "decision" in d.payload.fields
                       && d.payload.fields["decision"] in {Str("approved"), Str("refused")})
  {
    hide LastNamed, RuleOf, Binds, EntitlementText, ParamsHash;
    var c := Ctx(H, RuleOf(rows), actions);
    if d.payload.Obj? && "action_id" in d.payload.fields && d.payload.fields["action_id"].Str? {
      var a := d.payload.fields["action_id"].s;
      assert About(d, a) && forall b :: About(d, b) ==> b == a;
      if (d.run, a) in c.rules {
        RuleIsTheLastNamed(rows, (d.run, a), c.rules[(d.run, a)]);
        AttributedMeans(H, rows, actions, d, a, c.rules[(d.run, a)]);
      }
      forall rule ensures LastNamed(rows, (d.run, a), rule) ==> (d.run, a) in c.rules {
        RuleIsTheLastNamed(rows, (d.run, a), rule);
      }
    }
  }
}
