/** The policy engine: which rules fire on an action, and the one verdict they come to. Matching and conditions are
    abstract: a `Facts` value says of every rule whether it concerns the action and which of its conditions hold. */
module Policy {
  import opened Models
  import opened Order
  import GovernPlan

  type Role = string

  datatype Escalate = Escalate(verdict: VerdictKind, approver: Option<Role>)

  /** `expiresAfter` in minutes. */
  datatype Rule = Rule(id: string, clause: string, verdict: VerdictKind, approver: Option<Role>,
                       escalate: Option<Escalate>, elseVerdict: Option<VerdictKind>, terminal: bool,
                       expiresAfter: Option<nat>, alternative: Option<string>)

  const RULE_ID_LENGTH: nat := 11     // POL-XXX-000

  /** What the schema guarantees of a loaded rule, as far as the engine relies on it. */
  predicate Loaded(r: Rule) { |r.id| == RULE_ID_LENGTH && r.clause != "" }

  datatype Facts = Facts(concerns: Rule -> bool, holds: Rule -> bool, escalates: Rule -> bool)

  datatype Outcome = Outcome(rule: Rule, verdict: VerdictKind, role: Option<Role>)

  function RuleOutcome(r: Rule, f: Facts): Option<Outcome> {
    if f.holds(r) then
      if r.escalate.Some? && f.escalates(r) then Some(Outcome(r, r.escalate.value.verdict, r.escalate.value.approver))
      else Some(Outcome(r, r.verdict, r.approver))
    else if r.elseVerdict.Some? then Some(Outcome(r, r.elseVerdict.value, None))
    else None
  }

  // --- who is asked ---------------------------------------------------------------------------------------------

  /** The people who can act for a role, in order; None when no directory is configured. */
  datatype Directory = NoDirectory | Directory(candidates: Option<Role> -> seq<Person>)

  function RoleText(role: Option<Role>): string { if role.Some? then role.value else "None" }

  function FirstOther(people: seq<Person>, requestedBy: Option<Person>): Option<Person> {
    if people == [] then None
    else if people[0] != "" && Some(people[0]) != requestedBy then Some(people[0])
    else FirstOther(people[1..], requestedBy)
  }

  function ResolveApprover(d: Directory, role: Option<Role>, requestedBy: Option<Person>): (p: Person)
    ensures p != ""
  {
    var found := if d.NoDirectory? then None else FirstOther(d.candidates(role), requestedBy);
    if found.Some? && found.value != "" then found.value else "role:" + RoleText(role)
  }

  /** The first candidate who is somebody and not the requester; when there is none, the role itself, visibly. */
  lemma {:induction false} FirstOtherIsFirst(people: seq<Person>, requestedBy: Option<Person>)
    ensures FirstOther(people, requestedBy).Some? <==>
              exists i :: 0 <= i < |people| && people[i] != "" && Some(people[i]) != requestedBy
    ensures FirstOther(people, requestedBy).Some? ==>
              && FirstOther(people, requestedBy).value != "" && FirstOther(people, requestedBy) != requestedBy
              && exists i :: 0 <= i < |people| && people[i] == FirstOther(people, requestedBy).value &&
                   forall k :: 0 <= k < i ==> people[k] == "" || Some(people[k]) == requestedBy
  {
    if people != [] {
      FirstOtherIsFirst(people[1..], requestedBy);
      if people[0] != "" && Some(people[0]) != requestedBy {
        assert people[0] == FirstOther(people, requestedBy).value;
      } else {
        assert forall i :: 1 <= i < |people| ==> people[1..][i - 1] == people[i];
        if FirstOther(people, requestedBy).Some? {
          var i :| 0 <= i < |people[1..]| && people[1..][i] == FirstOther(people, requestedBy).value &&
                   forall k :: 0 <= k < i ==> people[1..][k] == "" || Some(people[1..][k]) == requestedBy;
          assert people[i + 1] == FirstOther(people, requestedBy).value;
          assert forall k :: 0 <= k < i + 1 ==> people[k] == "" || Some(people[k]) == requestedBy by {
            forall k | 1 <= k < i + 1 ensures people[k] == "" || Some(people[k]) == requestedBy {
              assert people[k] == people[1..][k - 1];
            }
          }
        }
      }
    }
  }

  predicate IsUnresolved(p: Person) { "role:" <= p }

  /** The requester is never named to approve their own request. */
  lemma NeverTheRequester(d: Directory, role: Option<Role>, requestedBy: Option<Person>)
    ensures var p := ResolveApprover(d, role, requestedBy);
            Some(p) != requestedBy || IsUnresolved(p)
  {
    if d.Directory? {
      FirstOtherIsFirst(d.candidates(role), requestedBy);
    }
  }

  // --- the verdict ----------------------------------------------------------------------------------------------

  const APPROVER_ROLES: seq<Role> := ["manager", "security-oncall", "incident-commander", "data-owner", "finance",
                                      "vp-finance"]

  /** Later in the list is more senior; an unknown role, or none, ranks below all. */
  function RankIn(roles: seq<Role>, role: Role): int {
    if roles == [] then -1
    else if roles[|roles| - 1] == role then |roles| - 1
    else RankIn(roles[..|roles| - 1], role)
  }

  function Rank(o: Outcome): int { if o.role.None? then RankIn(APPROVER_ROLES, "") else RankIn(APPROVER_ROLES, o.role.value) }

  /** Tuples of negated code points, as Python compares them. */
  predicate NegLe(a: string, b: string) {
    if a == "" then true
    else if b == "" then false
    else if a[0] == b[0] then NegLe(a[1..], b[1..])
    else a[0] > b[0]
  }

  /** On ids of one length the negated order is the reverse of the order of strings. */
  lemma {:induction false} NegatedOrder(a: string, b: string)
    requires |a| == |b|
    ensures NegLe(a, b) <==> StrLe(b, a)
  {
    if a != "" {
      NegatedOrder(a[1..], b[1..]);
    }
  }

  predicate StrLt(a: string, b: string) { !StrLe(b, a) }

  /** Among refusals: o is quoted before p, terminal ones first and then by id. */
  predicate RefusesBefore(o: Outcome, p: Outcome) {
    (o.rule.terminal && !p.rule.terminal) || (o.rule.terminal == p.rule.terminal && StrLt(o.rule.id, p.rule.id))
  }

  /** Among holds: o goes above p, the more senior approver first, then the lower id if the ids have
      one length, and the longer id if one continues the other. */
  predicate HoldsAbove(o: Outcome, p: Outcome) {
    Rank(o) > Rank(p) || (Rank(o) == Rank(p) && !NegLe(o.rule.id, p.rule.id))
  }

  predicate AllowsBefore(o: Outcome, p: Outcome) { StrLt(o.rule.id, p.rule.id) }

  /** The first element that no later one beats. */
  function Top(s: seq<Outcome>, beats: (Outcome, Outcome) -> bool): Outcome
    requires s != []
  {
    if |s| == 1 then s[0]
    else
      var t := Top(s[1..], beats);
      if beats(t, s[0]) then t else s[0]
  }

  function Of(fired: seq<Outcome>, k: VerdictKind): seq<Outcome> {
    if fired == [] then []
    else (if fired[0].verdict == k then [fired[0]] else []) + Of(fired[1..], k)
  }

  const DEFAULT_DENY_CLAUSE := "No written policy allows this action. Under the Access Control & Least Privilege "
    + "Standard, access and changes are denied by default until a rule explicitly allows them."

  const DEFAULT_DENY: Verdict := Verdict(REFUSE, "DEFAULT-DENY", DEFAULT_DENY_CLAUSE, None, false)

  datatype Asked = Asked(directory: Directory, requestedBy: Option<Person>)

  function Resolve(fired: seq<Outcome>, asked: Asked): Verdict {
    var refusals, holds, allows := Of(fired, REFUSE), Of(fired, HOLD), Of(fired, ALLOW);
    if refusals != [] then
      var top := Top(refusals, RefusesBefore);
      Verdict(REFUSE, top.rule.id, top.rule.clause, None, top.rule.terminal)
    else if holds != [] then
      var top := Top(holds, HoldsAbove);
      Verdict(HOLD, top.rule.id, top.rule.clause, Some(ResolveApprover(asked.directory, top.role, asked.requestedBy)), false)
    else if allows != [] then
      var top := Top(allows, AllowsBefore);
      Verdict(ALLOW, top.rule.id, top.rule.clause, None, false)
    else DEFAULT_DENY
  }

  function FiredBy(rules: seq<Rule>, f: Facts, disabled: set<string>): seq<Outcome> {
    if rules == [] then []
    else
      var r := rules[0];
      var o := RuleOutcome(r, f);
      (if r.id !in disabled && f.concerns(r) && o.Some? then [o.value] else []) + FiredBy(rules[1..], f, disabled)
  }

  function RuleId(): Rule -> string { (r: Rule) => r.id }

  /** The engine sorts its rules once, when it is built. */
  function Fired(rules: seq<Rule>, f: Facts, disabled: set<string>): seq<Outcome> {
    FiredBy(SortBy(rules, RuleId()), f, disabled)
  }

  function TimeBox(v: VerdictKind, fired: seq<Outcome>): Option<nat> { if v == REFUSE then None else Shortest(fired) }

  function Shortest(fired: seq<Outcome>): Option<nat> {
    if fired == [] then None
    else
      var rest := Shortest(fired[1..]);
      if fired[0].verdict == REFUSE || fired[0].rule.expiresAfter.None? then rest
      else if rest.Some? && rest.value < fired[0].rule.expiresAfter.value then rest
      else fired[0].rule.expiresAfter
  }

  /** `offer` reads the alternative's path; None unless it leads to a text that is not empty. */
  function Alternative(v: Verdict, fired: seq<Outcome>, offer: string -> Option<string>): Option<string> {
    if v.kind == ALLOW then None
    else
      var r := RuleOf(fired, v.ruleId);
      if r.None? || r.value.alternative.None? then None else offer(r.value.alternative.value)
  }

  function RuleOf(fired: seq<Outcome>, id: string): Option<Rule> {
    if fired == [] then None
    else if fired[0].rule.id == id then Some(fired[0].rule)
    else RuleOf(fired[1..], id)
  }

  datatype Decision = Decision(verdict: Verdict, fired: seq<Outcome>, alternative: Option<string>,
                               expiresAfter: Option<nat>)

  function Decide(rules: seq<Rule>, f: Facts, asked: Asked, offer: string -> Option<string>, disabled: set<string>): Decision {
    var fired := Fired(rules, f, disabled);
    var v := Resolve(fired, asked);
    Decision(v, fired, Alternative(v, fired, offer), TimeBox(v.kind, fired))
  }

  /** Stamps a decision on an action once, and its time box with it; a naive `now` raises first. */
  method ApplyDecision(a: Action, d: Decision, now: Option<int>) returns (ok: bool, expiresAt: Option<int>)
    requires WellFormed(d.verdict)
    modifies a
    ensures now.None? ==> !ok && a.View() == old(a.View())
    ensures now.Some? && old(a.View()) == Fresh(a.id, a.params) ==> ok && a.View() == Stamped(a.id, a.params, d.verdict)
    ensures old(a.verdict).Some? ==> !ok && a.View() == old(a.View())
    ensures expiresAt == if ok && d.expiresAfter.Some? then Some(now.value + d.expiresAfter.value) else None
  {
    expiresAt := None;
    if now.None? {
      return false, None;
    }
    ok := a.ApplyVerdict(d.verdict);
    if ok && d.expiresAfter.Some? {
      expiresAt := Some(now.value + d.expiresAfter.value);
    }
  }

  // --- what the verdict is --------------------------------------------------------------------------------------

  function Strictness(k: VerdictKind): nat { match k case ALLOW => 0 case HOLD => 1 case REFUSE => 2 }

  lemma {:induction false} OfContains(fired: seq<Outcome>, k: VerdictKind)
    ensures forall o :: o in Of(fired, k) <==> o in fired && o.verdict == k
  {
    if fired != [] {
      OfContains(fired[1..], k);
      assert forall o :: o in fired <==> o == fired[0] || o in fired[1..];
    }
  }

  /** The verdict is the strictest outcome of the rules that fired; a refusal when none did. */
  lemma VerdictIsStrictest(fired: seq<Outcome>, asked: Asked)
    ensures var k := Resolve(fired, asked).kind;
            && (forall o :: o in fired ==> Strictness(o.verdict) <= Strictness(k))
            && (fired != [] ==> exists o :: o in fired && o.verdict == k)
            && (fired == [] ==> Resolve(fired, asked) == DEFAULT_DENY)
  {
    OfContains(fired, REFUSE);
    OfContains(fired, HOLD);
    OfContains(fired, ALLOW);
    var k := Resolve(fired, asked).kind;
    if fired != [] {
      var o := fired[0];
      assert o in Of(fired, o.verdict);
      var chosen := Of(fired, k);
      assert chosen != [] && chosen[0] in chosen;
    }
  }

  ghost predicate Ordering(s: seq<Outcome>, beats: (Outcome, Outcome) -> bool) {
    && (forall o, p :: o in s && p in s && o != p ==> beats(o, p) != beats(p, o))
    && (forall o :: o in s ==> !beats(o, o))
    && (forall o, p, q :: o in s && p in s && q in s && beats(o, p) && beats(p, q) ==> beats(o, q))
  }

  lemma {:induction false} TopBeatsAll(s: seq<Outcome>, beats: (Outcome, Outcome) -> bool)
    requires s != [] && Ordering(s, beats)
    ensures var t := Top(s, beats);
            t in s && forall o :: o in s && o != t ==> beats(t, o)
  {
    if |s| > 1 {
      assert forall o :: o in s <==> o == s[0] || o in s[1..];
      TopBeatsAll(s[1..], beats);
    }
  }

  ghost predicate IdsApart(rules: seq<Rule>) {
    && (forall r :: r in rules ==> Loaded(r))
    && forall r, q :: r in rules && q in rules && r.id == q.id ==> r == q
  }

  ghost predicate FiredApart(fired: seq<Outcome>) {
    && (forall o :: o in fired ==> Loaded(o.rule))
    && forall o, p :: o in fired && p in fired && o.rule.id == p.rule.id ==> o == p
  }

  lemma StrLtOrders(a: string, b: string, c: string)
    ensures !StrLt(a, a) && (a != b ==> StrLt(a, b) != StrLt(b, a)) && (StrLt(a, b) && StrLt(b, c) ==> StrLt(a, c))
  {
    hide StrLe;
    StrLeTotal(a, b);
    StrLeTotal(b, c);
    StrLeTotal(a, c);
    StrLeTotal(a, a);
    if StrLe(a, b) && StrLe(b, a) {
      StrLeAntisymmetric(a, b);
    }
    if StrLt(a, b) && StrLt(b, c) && StrLe(c, a) {
      StrLeTransitive(c, a, b);
    }
  }

  lemma IdsOrder(s: seq<Outcome>)
    requires FiredApart(s)
    ensures Ordering(s, RefusesBefore) && Ordering(s, HoldsAbove) && Ordering(s, AllowsBefore)
  {
    hide RefusesBefore, HoldsAbove, AllowsBefore;
    forall o, p, q | o in s && p in s && q in s
      ensures !RefusesBefore(o, o) && !HoldsAbove(o, o) && !AllowsBefore(o, o)
      ensures o != p ==> RefusesBefore(o, p) != RefusesBefore(p, o) && HoldsAbove(o, p) != HoldsAbove(p, o) &&
                         AllowsBefore(o, p) != AllowsBefore(p, o)
      ensures RefusesBefore(o, p) && RefusesBefore(p, q) ==> RefusesBefore(o, q)
      ensures HoldsAbove(o, p) && HoldsAbove(p, q) ==> HoldsAbove(o, q)
      ensures AllowsBefore(o, p) && AllowsBefore(p, q) ==> AllowsBefore(o, q)
    {
      BeatsOrder(o, p, q);
    }
  }

  lemma BeatsOrder(o: Outcome, p: Outcome, q: Outcome)
    requires Loaded(o.rule) && Loaded(p.rule) && Loaded(q.rule) && (o.rule.id == p.rule.id ==> o == p)
    ensures !RefusesBefore(o, o) && !HoldsAbove(o, o) && !AllowsBefore(o, o)
    ensures o != p ==> RefusesBefore(o, p) != RefusesBefore(p, o) && HoldsAbove(o, p) != HoldsAbove(p, o) &&
                       AllowsBefore(o, p) != AllowsBefore(p, o)
    ensures RefusesBefore(o, p) && RefusesBefore(p, q) ==> RefusesBefore(o, q)
    ensures HoldsAbove(o, p) && HoldsAbove(p, q) ==> HoldsAbove(o, q)
    ensures AllowsBefore(o, p) && AllowsBefore(p, q) ==> AllowsBefore(o, q)
  {
    hide StrLt, NegLe, Rank;
    StrLtOrders(o.rule.id, p.rule.id, q.rule.id);
    NegIsLess(o.rule.id, o.rule.id);
    NegIsLess(o.rule.id, p.rule.id);
    NegIsLess(p.rule.id, o.rule.id);
    NegIsLess(p.rule.id, q.rule.id);
    NegIsLess(o.rule.id, q.rule.id);
  }

  lemma NegIsLess(a: string, b: string)
    requires |a| == |b|
    ensures !NegLe(a, b) == StrLt(a, b)
  {
    NegatedOrder(a, b);
  }

  /** Which rule the verdict quotes: among refusals a terminal one first, then the lowest id; among holds the most
      senior role, then the lowest id; among allowances the lowest id. Its clause is quoted verbatim. */
  lemma QuotedRule(fired: seq<Outcome>, asked: Asked)
    requires FiredApart(fired) && fired != []
    ensures exists top ::
              var v := Resolve(fired, asked);
              && top in fired && top.verdict == v.kind && v.ruleId == top.rule.id && v.clause == top.rule.clause
              && v.terminal == (v.kind == REFUSE && top.rule.terminal)
              && (v.kind == HOLD ==> v.approver == Some(ResolveApprover(asked.directory, top.role, asked.requestedBy)))
              && forall o :: o in fired && o.verdict == v.kind && o != top ==>
                   match v.kind
                   case REFUSE => RefusesBefore(top, o)
                   case HOLD => Rank(top) > Rank(o) || (Rank(top) == Rank(o) && StrLt(top.rule.id, o.rule.id))
                   case ALLOW => StrLt(top.rule.id, o.rule.id)
  {
    hide RefusesBefore, HoldsAbove, AllowsBefore, Rank, StrLt, NegLe, Of, Top;
    VerdictIsStrictest(fired, asked);
    var k := Resolve(fired, asked).kind;
    var chosen := Of(fired, k);
    OfContains(fired, REFUSE);
    OfContains(fired, HOLD);
    OfContains(fired, ALLOW);
    var some :| some in fired && some.verdict == k;
    assert some in chosen;
    OfApart(fired, k);
    IdsOrder(chosen);
    match k {
      case REFUSE =>
        TopBeatsAll(chosen, RefusesBefore);
      case HOLD =>
        TopBeatsAll(chosen, HoldsAbove);
        var top := Top(chosen, HoldsAbove);
        forall o | o in fired && o.verdict == HOLD && o != top
          ensures Rank(top) > Rank(o) || (Rank(top) == Rank(o) && StrLt(top.rule.id, o.rule.id))
        {
          assert HoldsAbove(top, o);
          AboveMeans(top, o);
        }
      case ALLOW =>
        TopBeatsAll(chosen, AllowsBefore);
        var top := Top(chosen, AllowsBefore);
        forall o | o in fired && o.verdict == ALLOW && o != top ensures StrLt(top.rule.id, o.rule.id) {
          assert AllowsBefore(top, o);
          BeforeMeans(top, o);
        }
    }
  }

  lemma OfApart(fired: seq<Outcome>, k: VerdictKind)
    requires FiredApart(fired)
    ensures FiredApart(Of(fired, k))
  {
    OfContains(fired, k);
  }

  lemma AboveMeans(o: Outcome, p: Outcome)
    requires HoldsAbove(o, p) && |o.rule.id| == |p.rule.id|
    ensures Rank(o) > Rank(p) || (Rank(o) == Rank(p) && StrLt(o.rule.id, p.rule.id))
  {
    NegIsLess(o.rule.id, p.rule.id);
  }

  lemma BeforeMeans(o: Outcome, p: Outcome)
    requires AllowsBefore(o, p)
    ensures StrLt(o.rule.id, p.rule.id)
  {
  }

  lemma {:induction false} FiredFromRules(rules: seq<Rule>, f: Facts, disabled: set<string>)
    requires IdsApart(rules)
    ensures FiredApart(FiredBy(rules, f, disabled))
    ensures forall o :: o in FiredBy(rules, f, disabled) <==>
              o.rule in rules && o.rule.id !in disabled && f.concerns(o.rule) && RuleOutcome(o.rule, f) == Some(o)
    decreases |rules|
  {
    hide RuleOutcome;
    if rules != [] {
      assert forall r :: r in rules <==> r == rules[0] || r in rules[1..];
      FiredFromRules(rules[1..], f, disabled);
      OutcomeNamesRule(rules[0], f);
    }
  }

  lemma OutcomeNamesRule(r: Rule, f: Facts)
    ensures RuleOutcome(r, f).Some? ==> RuleOutcome(r, f).value.rule == r
  {
  }

  /** What fires, rule by rule: an enabled rule that concerns the action fires its escalation when it holds and escalates, its
      own verdict when it holds and does not, its else-verdict, for nobody in particular, when it does not hold; and
      nothing else fires. With distinct rule ids every fired outcome has its own id. */
  lemma FiredExactly(rules: seq<Rule>, f: Facts, disabled: set<string>)
    requires IdsApart(rules)
    ensures FiredApart(Fired(rules, f, disabled))
    ensures forall o :: o in Fired(rules, f, disabled) <==>
              && o.rule in rules && o.rule.id !in disabled && f.concerns(o.rule)
              && ((f.holds(o.rule) && o.rule.escalate == Some(Escalate(o.verdict, o.role)) && f.escalates(o.rule)) ||
                  (f.holds(o.rule) && !(o.rule.escalate.Some? && f.escalates(o.rule)) && o.verdict == o.rule.verdict &&
                   o.role == o.rule.approver) ||
                  (!f.holds(o.rule) && o.rule.elseVerdict == Some(o.verdict) && o.role.None?))
  {
    SortByPermutes(rules, RuleId());
    FiredFromRules(SortBy(rules, RuleId()), f, disabled);
  }

  /** What a rule brings to the decision, in terms of the rule and the facts: the verdict is at least as strict as what the
      rule comes to, and a hold that quotes the rule asks for the role the rule came to. */
  lemma RuleIsHeard(rules: seq<Rule>, f: Facts, asked: Asked, offer: string -> Option<string>, disabled: set<string>, r: Rule)
    requires IdsApart(rules) && r in rules && r.id !in disabled && f.concerns(r)
    ensures var v := Decide(rules, f, asked, offer, disabled).verdict;
            && (f.holds(r) && r.escalate.Some? && f.escalates(r) ==>
                  Heard(v, r, r.escalate.value.verdict, r.escalate.value.approver, asked))
            && (f.holds(r) && !(r.escalate.Some? && f.escalates(r)) ==> Heard(v, r, r.verdict, r.approver, asked))
            && (!f.holds(r) && r.elseVerdict.Some? ==> Heard(v, r, r.elseVerdict.value, None, asked))
  {
    hide Resolve, RuleOutcome, RefusesBefore, StrLt, Rank;
    var fired := Fired(rules, f, disabled);
    FiredExactly(rules, f, disabled);
    VerdictIsStrictest(fired, asked);
    forall o | o in fired && o.rule == r ensures Heard(Resolve(fired, asked), r, o.verdict, o.role, asked) {
      QuotedRule(fired, asked);
      var top :| top in fired && top.verdict == Resolve(fired, asked).kind && Resolve(fired, asked).ruleId == top.rule.id &&
                 Resolve(fired, asked).clause == top.rule.clause &&
                 (Resolve(fired, asked).kind == REFUSE ==> Resolve(fired, asked).terminal == top.rule.terminal) &&
                 (Resolve(fired, asked).kind == HOLD ==>
                    Resolve(fired, asked).approver == Some(ResolveApprover(asked.directory, top.role, asked.requestedBy)));
      assert top.rule.id == r.id ==> top == o;
    }
    if f.holds(r) && r.escalate.Some? && f.escalates(r) {
      assert Outcome(r, r.escalate.value.verdict, r.escalate.value.approver) in fired;
    } else if f.holds(r) {
      assert Outcome(r, r.verdict, r.approver) in fired;
    } else if r.elseVerdict.Some? {
      assert Outcome(r, r.elseVerdict.value, None) in fired;
    }
  }

  /** The verdict v is at least as strict as k, and if it quotes the rule it is k, with the rule's clause, and for a hold the
      person found for the role. */
  ghost predicate Heard(v: Verdict, r: Rule, k: VerdictKind, role: Option<Role>, asked: Asked) {
    && (k == HOLD ==> v.kind != ALLOW) && (k == REFUSE ==> v.kind == REFUSE)
    && (v.ruleId == r.id ==>
          && v.kind == k && v.clause == r.clause
          && (k == REFUSE ==> v.terminal == r.terminal)
          && (k == HOLD ==> v.approver == Some(ResolveApprover(asked.directory, role, asked.requestedBy))))
  }

  lemma {:induction false} InsertedSilent(r: Rule, rules: seq<Rule>, f: Facts, disabled: set<string>)
    requires r.id in disabled || !f.concerns(r) || (!f.holds(r) && r.elseVerdict.None?)
    ensures FiredBy(Insert(r, rules, RuleId()), f, disabled) == FiredBy(rules, f, disabled)
    decreases |rules|
  {
    if rules != [] {
      InsertedSilent(r, rules[1..], f, disabled);
      assert ([r] + rules)[1..] == rules;
      assert ([rules[0]] + Insert(r, rules[1..], RuleId()))[1..] == Insert(r, rules[1..], RuleId());
    }
  }

  /** A rule that is disabled, does not concern the action, or does not hold and has no else-verdict might as well not be
      there. */
  lemma SilentRule(rules: seq<Rule>, r: Rule, f: Facts, asked: Asked, offer: string -> Option<string>, disabled: set<string>)
    requires IdsApart([r] + rules)
    requires r.id in disabled || !f.concerns(r) || (!f.holds(r) && r.elseVerdict.None?)
    ensures Decide([r] + rules, f, asked, offer, disabled) == Decide(rules, f, asked, offer, disabled)
  {
    hide RuleOutcome, Resolve, Alternative, TimeBox;
    assert ([r] + rules)[1..] == rules;
    InsertedSilent(r, SortBy(rules, RuleId()), f, disabled);
  }

  /** Nothing is decided that no rule says: without a rule to fire the request is refused by default, and otherwise some rule
      that fired is quoted, and its alternative is what a hold or refusal offers. */
  lemma VerdictIsWritten(rules: seq<Rule>, f: Facts, asked: Asked, offer: string -> Option<string>, disabled: set<string>)
    requires IdsApart(rules)
    ensures var d := Decide(rules, f, asked, offer, disabled);
            && (d.fired == [] ==>
                  d.verdict.kind == REFUSE && d.verdict.ruleId == "DEFAULT-DENY" && !d.verdict.terminal && d.alternative.None?)
            && (d.fired != [] ==> exists o ::
                  && o in d.fired && o.rule in rules && o.rule.id == d.verdict.ruleId && o.verdict == d.verdict.kind
                  && o.rule.clause == d.verdict.clause && d.verdict.terminal == (o.verdict == REFUSE && o.rule.terminal)
                  && d.alternative == if d.verdict.kind == ALLOW || o.rule.alternative.None? then None
                                      else offer(o.rule.alternative.value))
  {
    hide RuleOutcome, Resolve, RefusesBefore, StrLt, Rank;
    var fired := Fired(rules, f, disabled);
    FiredExactly(rules, f, disabled);
    VerdictIsStrictest(fired, asked);
    if fired != [] {
      QuotedRule(fired, asked);
      var v := Resolve(fired, asked);
      var top :| top in fired && top.verdict == v.kind && v.ruleId == top.rule.id && v.clause == top.rule.clause &&
                  v.terminal == (v.kind == REFUSE && top.rule.terminal);
      RuleOfFinds(fired, top);
    }
  }

  lemma {:induction false} RuleOfFinds(fired: seq<Outcome>, o: Outcome)
    requires FiredApart(fired) && o in fired
    ensures RuleOf(fired, o.rule.id) == Some(o.rule)
  {
    assert fired[0] in fired;
    if fired[0].rule.id != o.rule.id {
      RuleOfFinds(fired[1..], o);
    }
  }

  /** Whoever is granted something is granted it for the shortest time that a rule which fired without refusing sets, and
      without limit exactly when none sets one. */
  lemma GrantIsBoxed(rules: seq<Rule>, f: Facts, asked: Asked, offer: string -> Option<string>, disabled: set<string>)
    ensures var d := Decide(rules, f, asked, offer, disabled);
            && (d.verdict.kind == REFUSE ==> d.expiresAfter.None?)
            && (d.verdict.kind != REFUSE ==>
                  && (d.expiresAfter.None? <==> forall o :: o in d.fired && o.verdict != REFUSE ==> o.rule.expiresAfter.None?)
                  && (d.expiresAfter.Some? ==>
                        && (exists o :: o in d.fired && o.verdict != REFUSE && o.rule.expiresAfter == d.expiresAfter)
                        && forall o :: o in d.fired && o.verdict != REFUSE && o.rule.expiresAfter.Some? ==>
                             d.expiresAfter.value <= o.rule.expiresAfter.value))
  {
    hide Fired, Resolve, Alternative;
    ShortestIsLeast(Fired(rules, f, disabled));
  }

  /** Whom a hold asks: the first candidate for the role who is somebody and not the requester; and only when there is none,
      or no directory, the role itself. */
  lemma ApproverIsFound(d: Directory, role: Option<Role>, requestedBy: Option<Person>)
    ensures var p := ResolveApprover(d, role, requestedBy);
            if d.NoDirectory? || (forall i :: 0 <= i < |d.candidates(role)| ==>
                                    d.candidates(role)[i] == "" || Some(d.candidates(role)[i]) == requestedBy)
            then p == "role:" + (if role.Some? then role.value else "None")
            else exists i :: 0 <= i < |d.candidates(role)| && p == d.candidates(role)[i] && p != "" && Some(p) != requestedBy &&
                   forall k :: 0 <= k < i ==> d.candidates(role)[k] == "" || Some(d.candidates(role)[k]) == requestedBy
  {
    if d.Directory? {
      FirstOtherIsFirst(d.candidates(role), requestedBy);
    }
  }

  /** Seniority: each role of the list is above the ones before it, and all are above an unknown role and none. */
  lemma SeniorityIsTheList(o: Outcome, p: Outcome)
    ensures Rank(o) > Rank(p) <==>
            (exists i :: 0 <= i < |APPROVER_ROLES| && o.role == Some(APPROVER_ROLES[i]) &&
               forall k :: i <= k < |APPROVER_ROLES| ==> p.role != Some(APPROVER_ROLES[k]))
  {
    RankIs(APPROVER_ROLES, if o.role.Some? then o.role.value else "");
    RankIs(APPROVER_ROLES, if p.role.Some? then p.role.value else "");
    assert forall i, k :: 0 <= i < k < |APPROVER_ROLES| ==> APPROVER_ROLES[i] != APPROVER_ROLES[k];
    assert "" !in APPROVER_ROLES;
  }

  lemma {:induction false} RankIs(roles: seq<Role>, role: Role)
    ensures role in roles ==> 0 <= RankIn(roles, role) < |roles| && roles[RankIn(roles, role)] == role
    ensures role !in roles ==> RankIn(roles, role) == -1
    decreases |roles|
  {
    if roles != [] {
      RankIs(roles[..|roles| - 1], role);
    }
  }

  /** The order in which the rules are loaded does not matter. */
  lemma RuleOrderIsForgotten(rules: seq<Rule>, shuffled: seq<Rule>, f: Facts, asked: Asked,
                             offer: string -> Option<string>, disabled: set<string>)
    requires multiset(rules) == multiset(shuffled) && IdsApart(rules)
    ensures Decide(rules, f, asked, offer, disabled) == Decide(shuffled, f, asked, offer, disabled)
  {
    assert KeyedApart(rules, RuleId());
    SortForgetsOrder(rules, shuffled, RuleId());
  }

  /** The time box: none on a refusal, otherwise the shortest among all rules that allowed or held. */
  lemma {:induction false} ShortestIsLeast(fired: seq<Outcome>)
    ensures Shortest(fired).None? <==> forall o :: o in fired && o.verdict != REFUSE ==> o.rule.expiresAfter.None?
    ensures Shortest(fired).Some? ==>
              && (exists o :: o in fired && o.verdict != REFUSE && o.rule.expiresAfter == Shortest(fired))
              && forall o :: o in fired && o.verdict != REFUSE && o.rule.expiresAfter.Some? ==>
                   Shortest(fired).value <= o.rule.expiresAfter.value
  {
    if fired != [] {
      ShortestIsLeast(fired[1..]);
      assert forall o :: o in fired <==> o == fired[0] || o in fired[1..];
      var rest := Shortest(fired[1..]);
      if Shortest(fired) == rest && rest.Some? {
        var o :| o in fired[1..] && o.verdict != REFUSE && o.rule.expiresAfter == rest;
        assert o in fired;
      } else if Shortest(fired).Some? {
        assert fired[0] in fired;
      }
    }
  }

  /** What a decision always is: a verdict that may exist, with the rules that fired, no alternative when allowed, no
      time box when refused. */
  lemma DecisionIsWellFormed(rules: seq<Rule>, f: Facts, asked: Asked, offer: string -> Option<string>, disabled: set<string>)
    requires IdsApart(rules)
    ensures var d := Decide(rules, f, asked, offer, disabled);
            && WellFormed(d.verdict)
            && d.verdict.ruleId != "" && d.verdict.clause != ""
            && (d.verdict.kind == HOLD <==> d.verdict.approver.Some?) && d.verdict.approver != Some("")
            && (d.verdict.terminal ==> d.verdict.kind == REFUSE)
            && (d.verdict.kind == ALLOW ==> d.alternative.None?)
            && (d.verdict.kind == REFUSE ==> d.expiresAfter.None?)
            && (d.verdict.kind == HOLD ==> Some(d.verdict.approver.value) != asked.requestedBy || IsUnresolved(d.verdict.approver.value))
  {
    hide RuleOutcome, RefusesBefore, Rank, StrLt, Fired;
    var fired := Fired(rules, f, disabled);
    FiredExactly(rules, f, disabled);
    if fired == [] {
      VerdictIsStrictest(fired, asked);
    } else {
      QuotedRule(fired, asked);
      ResolveShape(fired, asked);
      var top :| top in fired && top.verdict == Resolve(fired, asked).kind && Resolve(fired, asked).ruleId == top.rule.id
                 && Resolve(fired, asked).clause == top.rule.clause
                 && (Resolve(fired, asked).kind == HOLD ==>
                       Resolve(fired, asked).approver == Some(ResolveApprover(asked.directory, top.role, asked.requestedBy)));
      NeverTheRequester(asked.directory, top.role, asked.requestedBy);
    }
  }

  lemma ResolveShape(fired: seq<Outcome>, asked: Asked)
    ensures var v := Resolve(fired, asked);
            (v.kind == HOLD <==> v.approver.Some?) && (v.terminal ==> v.kind == REFUSE)
  {
  }

  /** The engine is a decider as the plan needs one: whatever the facts of an action, its verdict may exist. */
  lemma EngineDecides(rules: seq<Rule>, facts: Params -> Facts, asked: Asked, offer: string -> Option<string>)
    requires IdsApart(rules)
    ensures GovernPlan.Decides((p: Params) => Decide(rules, facts(p), asked, offer, {}).verdict)
  {
    hide Decide, WellFormed;
    forall p ensures WellFormed(Decide(rules, facts(p), asked, offer, {}).verdict) {
      DecisionIsWellFormed(rules, facts(p), asked, offer, {});
    }
  }
}
