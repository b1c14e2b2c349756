/** Policy Studio: every action of a run decided twice with today's rules, once as they are and once with one rule held
    out, and a report of the difference. Nothing is written. */
module Studio {
  import opened Models
  import opened Order
  import opened Policy

  datatype Shown = Shown(verdict: VerdictKind, ruleId: string, approver: Option<Person>, terminal: Option<bool>)

  function Of(v: Verdict): Shown { Shown(v.kind, v.ruleId, v.approver, Some(v.terminal)) }

  predicate SameDecision(a: Shown, b: Shown) {
    a.verdict == b.verdict && a.ruleId == b.ruleId && a.approver == b.approver
  }

  datatype Change = Unchanged | Loosened | Tightened | SameVerdict

  function ChangeOf(before: Shown, after: Shown): Change {
    var delta := Strictness(after.verdict) - Strictness(before.verdict);
    if delta < 0 then Loosened
    else if delta > 0 then Tightened
    else if SameDecision(before, after) then Unchanged
    else SameVerdict
  }

  datatype Diff = Diff(id: ActionId, stored: Option<Shown>, before: Shown, after: Shown, change: Change, drift: bool)

  /** What the engine is given besides the rules: the facts of each action (its id, kind and target), and who asked. */
  datatype Setting = Setting(rules: seq<Rule>, facts: (ActionId, Params) -> Facts, asked: Asked,
                             offer: string -> Option<string>)

  function Decided(s: Setting, a: ActionView, disabled: set<string>): Shown {
    Of(Decide(s.rules, s.facts(a.id, a.params), s.asked, s.offer, disabled).verdict)
  }

  function Recorded(a: ActionView): Option<Shown> {
    if a.verdict.None? then None else Some(Shown(a.verdict.value, a.ruleId.GetOr(""), a.approver, None))
  }

  function DiffOf(s: Setting, a: ActionView, rule: string): Diff {
    var before, after := Decided(s, a, {}), Decided(s, a, {rule});
    var recorded := Recorded(a);
    Diff(a.id, recorded, before, after, ChangeOf(before, after), recorded.Some? && !SameDecision(recorded.value, before))
  }

  datatype Tally = Tally(allow: nat, hold: nat, refuse: nat)

  function Tallied(t: Tally, k: VerdictKind): Tally {
    match k
    case ALLOW => t.(allow := t.allow + 1)
    case HOLD => t.(hold := t.hold + 1)
    case REFUSE => t.(refuse := t.refuse + 1)
  }

  datatype BlastRadius = BlastRadius(examined: nat, changed: nat, loosened: nat, tightened: nat, sameVerdict: nat,
                                     unblocked: nat, losesApproval: nat, newlyRefused: nat, drift: nat,
                                     before: Tally, after: Tally)

  datatype Report = Report(holdOut: string, terminal: bool, rows: seq<Diff>, radius: BlastRadius)

  function Count(rows: seq<Diff>, p: Diff -> bool): nat {
    if rows == [] then 0 else (if p(rows[0]) then 1 else 0) + Count(rows[1..], p)
  }

  /** One counter per verdict. */
  method TallyOf(outcomes: seq<Shown>) returns (t: Tally)
    ensures t.allow + t.hold + t.refuse == |outcomes|
    ensures t == Totals(outcomes)
  {
    t := Tally(0, 0, 0);
    for i := 0 to |outcomes|
      invariant t.allow + t.hold + t.refuse == i
      invariant t.allow + CountOf(outcomes[i..], ALLOW) == CountOf(outcomes, ALLOW)
      invariant t.hold + CountOf(outcomes[i..], HOLD) == CountOf(outcomes, HOLD)
      invariant t.refuse + CountOf(outcomes[i..], REFUSE) == CountOf(outcomes, REFUSE)
    {
      assert outcomes[i..][0] == outcomes[i] && outcomes[i..][1..] == outcomes[i + 1..];
      t := Tallied(t, outcomes[i].verdict);
    }
  }

  function CountOf(outcomes: seq<Shown>, k: VerdictKind): nat {
    if outcomes == [] then 0 else (if outcomes[0].verdict == k then 1 else 0) + CountOf(outcomes[1..], k)
  }

  function Totals(outcomes: seq<Shown>): Tally {
    Tally(CountOf(outcomes, ALLOW), CountOf(outcomes, HOLD), CountOf(outcomes, REFUSE))
  }

  function Befores(rows: seq<Diff>): seq<Shown> { seq(|rows|, i requires 0 <= i < |rows| => rows[i].before) }

  function Afters(rows: seq<Diff>): seq<Shown> { seq(|rows|, i requires 0 <= i < |rows| => rows[i].after) }

  method RadiusOf(rows: seq<Diff>) returns (b: BlastRadius)
    ensures b.examined == |rows|
    ensures b.changed == Count(rows, (r: Diff) => r.change != Unchanged)
    ensures b.loosened == Count(rows, (r: Diff) => r.change == Loosened)
    ensures b.tightened == Count(rows, (r: Diff) => r.change == Tightened)
    ensures b.sameVerdict == Count(rows, (r: Diff) => r.change == SameVerdict)
    ensures b.unblocked == Count(rows, (r: Diff) => r.before.verdict == REFUSE && r.after.verdict != REFUSE)
    ensures b.losesApproval == Count(rows, (r: Diff) => r.before.verdict == HOLD && r.after.verdict == ALLOW)
    ensures b.newlyRefused == Count(rows, (r: Diff) => r.before.verdict != REFUSE && r.after.verdict == REFUSE)
    ensures b.drift == Count(rows, (r: Diff) => r.drift)
    ensures b.before == Totals(Befores(rows)) && b.before.allow + b.before.hold + b.before.refuse == |rows|
    ensures b.after == Totals(Afters(rows)) && b.after.allow + b.after.hold + b.after.refuse == |rows|
  {
    var before := TallyOf(Befores(rows));
    var after := TallyOf(Afters(rows));
    b := BlastRadius(|rows|,
                     Count(rows, (r: Diff) => r.change != Unchanged), Count(rows, (r: Diff) => r.change == Loosened),
                     Count(rows, (r: Diff) => r.change == Tightened), Count(rows, (r: Diff) => r.change == SameVerdict),
                     Count(rows, (r: Diff) => r.before.verdict == REFUSE && r.after.verdict != REFUSE),
                     Count(rows, (r: Diff) => r.before.verdict == HOLD && r.after.verdict == ALLOW),
                     Count(rows, (r: Diff) => r.before.verdict != REFUSE && r.after.verdict == REFUSE),
                     Count(rows, (r: Diff) => r.drift), before, after);
  }

  ghost predicate Known(rules: seq<Rule>, rule: string) { exists r :: r in rules && r.id == rule }

  /** Re-decides every action of the case; None when the rule to hold out is not loaded. The totals of the report
      balance: see RowsBalance. */
  method SimulateHoldOut(s: Setting, actions: seq<ActionView>, rule: string) returns (r: Option<Report>)
    requires IdsApart(s.rules)
    ensures r.None? <==> !Known(s.rules, rule)
    ensures r.Some? ==>
              && r.value.holdOut == rule
              && r.value.rows == seq(|actions|, i requires 0 <= i < |actions| => DiffOf(s, actions[i], rule))
              && var b := r.value.radius;
                 && b.examined == |actions|
                 && b.before == Totals(Befores(r.value.rows)) && b.after == Totals(Afters(r.value.rows))
                 && b.drift == Count(r.value.rows, (d: Diff) => d.drift)
                 && b.tightened == Count(r.value.rows, (d: Diff) => d.change == Tightened)
                 && b.loosened == Count(r.value.rows, (d: Diff) => d.change == Loosened)
                 && b.sameVerdict == Count(r.value.rows, (d: Diff) => d.change == SameVerdict)
                 && b.tightened == b.newlyRefused
                 && b.loosened == b.unblocked + b.losesApproval
                 && b.changed == b.loosened + b.tightened + b.sameVerdict
                 && b.before.allow + b.before.hold + b.before.refuse == b.examined
                 && b.after.allow + b.after.hold + b.after.refuse == b.examined
  {
    hide DiffOf, Tightening;
    var found := Find(s.rules, rule);
    if found.None? {
      return None;
    }
    var rows: seq<Diff> := [];
    for i := 0 to |actions|
      invariant |rows| == i && forall k :: 0 <= k < i ==> rows[k] == DiffOf(s, actions[k], rule)
    {
      rows := rows + [DiffOf(s, actions[i], rule)];
    }
    var b := RadiusOf(rows);
    forall k | 0 <= k < |rows| ensures Balanced(rows[k]) {
      DiffsBalance(s, actions[k], rule);
    }
    RowsBalance(rows);
    return Some(Report(rule, found.value.terminal, rows, b));
  }

  method Find(rules: seq<Rule>, id: string) returns (r: Option<Rule>)
    ensures r.None? <==> !Known(rules, id)
    ensures r.Some? ==> r.value in rules && r.value.id == id
  {
    for i := 0 to |rules|
      invariant forall k :: 0 <= k < i ==> rules[k].id != id
    {
      if rules[i].id == id {
        return Some(rules[i]);
      }
    }
    return None;
  }

  // --- holding one rule out -------------------------------------------------------------------------------------

  function Without(fired: seq<Outcome>, rule: string): seq<Outcome> {
    if fired == [] then []
    else (if fired[0].rule.id == rule then [] else [fired[0]]) + Without(fired[1..], rule)
  }

  lemma {:induction false} WithoutContains(fired: seq<Outcome>, rule: string)
    ensures forall o :: o in Without(fired, rule) <==> o in fired && o.rule.id != rule
    ensures (forall o :: o in fired ==> o.rule.id != rule) ==> Without(fired, rule) == fired
  {
    if fired != [] {
      WithoutContains(fired[1..], rule);
      assert forall o :: o in fired <==> o == fired[0] || o in fired[1..];
      assert fired == [fired[0]] + fired[1..];
    }
  }

  /** Disabling a rule removes exactly its outcome. */
  lemma {:induction false} DisabledIsWithout(rules: seq<Rule>, f: Facts, rule: string)
    ensures FiredBy(rules, f, {rule}) == Without(FiredBy(rules, f, {}), rule)
    decreases |rules|
  {
    hide RuleOutcome;
    if rules != [] {
      DisabledIsWithout(rules[1..], f, rule);
      OutcomeNamesRule(rules[0], f);
      var r, rest := rules[0], FiredBy(rules[1..], f, {});
      var o := RuleOutcome(r, f);
      if f.concerns(r) && o.Some? {
        assert ([o.value] + rest)[0] == o.value && ([o.value] + rest)[1..] == rest;
      } else {
        assert [] + rest == rest;
      }
    }
  }

  /** The rule was the only one that fired, and it did not refuse. */
  ghost predicate Tightening(fired: seq<Outcome>, rule: string) {
    fired != [] && (forall o :: o in fired ==> o.rule.id == rule && o.verdict != REFUSE)
  }

  /** Holding one rule out of a decision: it tightens exactly when that rule alone had fired and had not refused; an
      allowance never becomes a hold; and a rule that did not fire changes nothing. */
  lemma HoldOut(fired: seq<Outcome>, rule: string, asked: Asked)
    requires FiredApart(fired)
    ensures var before, after := Resolve(fired, asked), Resolve(Without(fired, rule), asked);
            && (ChangeOf(Of(before), Of(after)) == Tightened <==> Tightening(fired, rule))
            && !(before.kind == ALLOW && after.kind == HOLD)
            && ((forall o :: o in fired ==> o.rule.id != rule) ==> after == before)
            && (Strictness(after.kind) > Strictness(before.kind) ==> after == DEFAULT_DENY)
  {
    hide Resolve, RefusesBefore;
    var rest := Without(fired, rule);
    WithoutContains(fired, rule);
    VerdictIsStrictest(fired, asked);
    VerdictIsStrictest(rest, asked);
    if rest != [] {
      var o :| o in rest && o.verdict == Resolve(rest, asked).kind;
      assert o in fired;
      assert rest[0] in rest && rest[0].rule.id != rule;
    } else if fired != [] {
      assert forall o :: o in fired ==> o.rule.id == rule;
      assert forall o :: o in fired ==> o == fired[0];
      var o :| o in fired && o.verdict == Resolve(fired, asked).kind;
    }
  }

  /** The exact condition for loosening: another rule fired, and every rule as strict as the verdict was the held one. */
  lemma LoosensExactly(fired: seq<Outcome>, rule: string, asked: Asked)
    requires FiredApart(fired)
    ensures var before, after := Resolve(fired, asked), Resolve(Without(fired, rule), asked);
            ChangeOf(Of(before), Of(after)) == Loosened <==>
              (exists o :: o in fired && o.rule.id != rule) &&
              forall o :: o in fired && o.verdict == before.kind ==> o.rule.id == rule
  {
    hide Resolve, RefusesBefore;
    var rest := Without(fired, rule);
    WithoutContains(fired, rule);
    VerdictIsStrictest(fired, asked);
    VerdictIsStrictest(rest, asked);
    assert rest != [] ==> rest[0] in rest;
    if o :| o in fired && o.rule.id != rule {
      assert o in rest;
      var p :| p in rest && p.verdict == Resolve(rest, asked).kind;
      assert p in fired;
      if Strictness(Resolve(rest, asked).kind) < Strictness(Resolve(fired, asked).kind) {
        forall q | q in fired && q.verdict == Resolve(fired, asked).kind ensures q.rule.id == rule {
          assert q.rule.id == rule || q in rest;
        }
      }
    } else {
      assert forall o :: o in rest ==> false;
    }
  }

  /** What holds of every row of a report. */
  ghost predicate Balanced(r: Diff) {
    && r.change == ChangeOf(r.before, r.after)
    && !(r.before.verdict == ALLOW && r.after.verdict == HOLD)
  }

  lemma DiffsBalance(s: Setting, a: ActionView, rule: string)
    requires IdsApart(s.rules)
    ensures Balanced(DiffOf(s, a, rule))
  {
    hide Resolve;
    var f := s.facts(a.id, a.params);
    FiredExactly(s.rules, f, {});
    DisabledIsWithout(SortBy(s.rules, RuleId()), f, rule);
    HoldOut(Fired(s.rules, f, {}), rule, s.asked);
  }

  /** What one row of the report means, in terms of the rules that fired on its action. */
  lemma DiffMeans(s: Setting, a: ActionView, rule: string)
    requires IdsApart(s.rules)
    ensures var fired, d := Fired(s.rules, s.facts(a.id, a.params), {}), DiffOf(s, a, rule);
            && (d.change == Tightened <==> Tightening(fired, rule))
            && (d.change == Tightened ==> d.after == Of(DEFAULT_DENY))
            && ((forall o :: o in fired ==> o.rule.id != rule) ==> d.after == d.before && d.change == Unchanged)
            && (d.change == Loosened <==>
                  (exists o :: o in fired && o.rule.id != rule) &&
                  forall o :: o in fired && o.verdict == d.before.verdict ==> o.rule.id == rule)
  {
    hide Resolve;
    var f := s.facts(a.id, a.params);
    FiredExactly(s.rules, f, {});
    DisabledIsWithout(SortBy(s.rules, RuleId()), f, rule);
    HoldOut(Fired(s.rules, f, {}), rule, s.asked);
    LoosensExactly(Fired(s.rules, f, {}), rule, s.asked);
  }

  lemma {:induction false} NoneDisabled(rules: seq<Rule>, f: Facts, id: string)
    requires forall r :: r in rules ==> r.id != id
    ensures FiredBy(rules, f, {id}) == FiredBy(rules, f, {})
  {
    hide RuleOutcome;
    if rules != [] {
      NoneDisabled(rules[1..], f, id);
      assert rules[0] in rules;
    }
  }

  /** Holding a rule out decides as if it had been deleted from the policy. */
  lemma HeldOutIsDeleted(s: Setting, a: ActionView, i: nat)
    requires IdsApart(s.rules) && i < |s.rules| && forall j :: 0 <= j < |s.rules| && j != i ==> s.rules[j].id != s.rules[i].id
    ensures var d := DiffOf(s, a, s.rules[i].id);
            && d.after == Decided(s.(rules := s.rules[..i] + s.rules[i + 1..]), a, {})
            && d.before == Decided(s, a, {})
  {
    hide IdsApart, Decide;
    var r, rest, f := s.rules[i], s.rules[..i] + s.rules[i + 1..], s.facts(a.id, a.params);
    PulledOut(s.rules, i);
    RuleOrderIsForgotten(s.rules, [r] + rest, f, s.asked, s.offer, {r.id});
    SilentRule(rest, r, f, s.asked, s.offer, {r.id});
    NotThere(rest, f, s, r.id);
  }

  lemma PulledOut(rules: seq<Rule>, i: nat)
    requires IdsApart(rules) && i < |rules| && forall j :: 0 <= j < |rules| && j != i ==> rules[j].id != rules[i].id
    ensures var rest := rules[..i] + rules[i + 1..];
            && multiset([rules[i]] + rest) == multiset(rules) && IdsApart([rules[i]] + rest)
            && forall q :: q in rest ==> q.id != rules[i].id
  {
    var r, rest := rules[i], rules[..i] + rules[i + 1..];
    assert multiset([r] + rest) == multiset(rules) by {
      assert rules == rules[..i] + ([r] + rules[i + 1..]);
    }
    forall q | q in rest ensures q.id != r.id && q in rules {
      var k :| 0 <= k < |rest| && rest[k] == q;
      assert q == rules[if k < i then k else k + 1];
    }
  }

  lemma NotThere(rules: seq<Rule>, f: Facts, s: Setting, id: string)
    requires forall q :: q in rules ==> q.id != id
    ensures Decide(rules, f, s.asked, s.offer, {id}) == Decide(rules, f, s.asked, s.offer, {})
  {
    hide Resolve, Alternative, TimeBox, RuleOutcome, SortBy;
    SortByPermutes(rules, RuleId());
    NoneDisabled(SortBy(rules, RuleId()), f, id);
  }

  /** A row drifts when the verdict on record is not the one that today's rules come to. */
  lemma DriftMeans(s: Setting, a: ActionView, rule: string)
    ensures var v := Decide(s.rules, s.facts(a.id, a.params), s.asked, s.offer, {}).verdict;
            DiffOf(s, a, rule).drift <==>
              a.verdict.Some? && !(a.verdict == Some(v.kind) && a.ruleId.GetOr("") == v.ruleId && a.approver == v.approver)
  {
    hide Decide;
  }

  /** The rows a total counts. */
  function Such(rows: seq<Diff>, p: Diff -> bool): set<nat> { set i: nat | i < |rows| && p(rows[i]) }

  lemma {:induction false} CountIs(rows: seq<Diff>, p: Diff -> bool)
    ensures Count(rows, p) == |Such(rows, p)|
  {
    if rows != [] {
      CountIs(rows[1..], p);
      var rest := set i: nat | i < |rows| && i > 0 && p(rows[i]);
      Shifted(Such(rows[1..], p), rest);
      assert Such(rows, p) == (if p(rows[0]) then {0} else {}) + rest;
    }
  }

  lemma {:induction false} Shifted(a: set<nat>, b: set<nat>)
    requires forall i: nat :: i in a <==> i + 1 in b
    requires 0 !in b
    ensures |a| == |b|
    decreases a
  {
    forall k | k in b ensures k > 0 && k - 1 in a {
      assert k == (k - 1) + 1;
    }
    if a == {} {
      assert b == {};
    } else {
      var i :| i in a;
      assert i + 1 in b;
      Shifted(a - {i}, b - {i + 1});
    }
  }

  /** In every report: tightened is newly refused, loosened is unblocked or released from approval, and every change is
      exactly one of loosened, tightened and same verdict. */
  lemma {:induction false} RowsBalance(rows: seq<Diff>)
    requires forall k :: 0 <= k < |rows| ==> Balanced(rows[k])
    ensures Count(rows, (r: Diff) => r.change == Tightened) ==
            Count(rows, (r: Diff) => r.before.verdict != REFUSE && r.after.verdict == REFUSE)
    ensures Count(rows, (r: Diff) => r.change == Loosened) ==
            Count(rows, (r: Diff) => r.before.verdict == REFUSE && r.after.verdict != REFUSE) +
            Count(rows, (r: Diff) => r.before.verdict == HOLD && r.after.verdict == ALLOW)
    ensures Count(rows, (r: Diff) => r.change != Unchanged) ==
            Count(rows, (r: Diff) => r.change == Loosened) + Count(rows, (r: Diff) => r.change == Tightened) +
            Count(rows, (r: Diff) => r.change == SameVerdict)
  {
    if rows != [] {
      RowsBalance(rows[1..]);
      assert Balanced(rows[0]);
    }
  }
}
