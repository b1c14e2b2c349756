/** Govern and Plan: the candidate actions a request could mean, the revocations a transfer brings, and their order. */
module GovernPlan {
  import opened Models
  import opened Order
  import opened Text
  import opened Connector
  import opened Protocol

  datatype Intent = SameAsPeer | Onboarding | OtherIntent

  /** Fetched once per run. `names` is the order in which the catalogue's entries are iterated. */
  datatype Inputs = Inputs(holdings: seq<string>, peerHoldings: seq<string>, catalog: map<string, Entry>,
                           names: seq<string>, baseline: seq<string>)

  datatype Subject = Subject(id: string, role: string, team: string, previousTeam: string, sowRepos: seq<string>)

  predicate Iterates(inputs: Inputs) { forall n :: n in inputs.names ==> n in inputs.catalog }

  // --- what is wanted -------------------------------------------------------------------------------------------

  function Without(xs: seq<string>, held: seq<string>): seq<string> {
    if xs == [] then []
    else (if xs[0] in held then [] else [xs[0]]) + Without(xs[1..], held)
  }

  /** The entitlement whose GitHub entry names `repo`; the last one iterated wins. */
  function RepoEntitlement(inputs: Inputs, names: seq<string>, repo: string): Option<string>
    requires forall n :: n in names ==> n in inputs.catalog
  {
    if names == [] then None
    else
      var last := names[|names| - 1];
      if inputs.catalog[last].system == "github" && inputs.catalog[last].repo == repo then Some(last)
      else RepoEntitlement(inputs, names[..|names| - 1], repo)
  }

  function RepoWanted(inputs: Inputs, repos: seq<string>, wanted: seq<string>): seq<string>
    requires Iterates(inputs)
  {
    if repos == [] then []
    else
      var e := RepoEntitlement(inputs, inputs.names, repos[0]);
      (if e.Some? && e.value !in wanted && e.value !in inputs.holdings then [e.value] else [])
      + RepoWanted(inputs, repos[1..], wanted)
  }

  function TeamWanted(inputs: Inputs, names: seq<string>, team: string, wanted: seq<string>): seq<string>
    requires forall n :: n in names ==> n in inputs.catalog
  {
    if names == [] then []
    else
      (if team in inputs.catalog[names[0]].teams && names[0] !in wanted && names[0] !in inputs.holdings
       then [names[0]] else []) + TeamWanted(inputs, names[1..], team, wanted)
  }

  function Wanted(intent: Intent, everything: bool, s: Subject, inputs: Inputs): seq<string>
    requires Iterates(inputs)
  {
    match intent
    case SameAsPeer => Without(inputs.peerHoldings, inputs.holdings)
    case Onboarding =>
      var base := Without(inputs.baseline, inputs.holdings);
      var repos := base + RepoWanted(inputs, s.sowRepos, base);
      if everything && s.team != "" then repos + TeamWanted(inputs, inputs.names, s.team, repos) else repos
    case OtherIntent => []
  }

  /** One action per wanted entitlement; None when one is not in the catalogue (the lookup raises). */
  function ActionsFor(prefix: char, kind: string, origin: string, ents: seq<string>, subject: string,
                      catalog: map<string, Entry>): Option<seq<(ActionId, Params)>>
  {
    if exists e :: e in ents && e !in catalog then None
    else Some(seq(|ents|, i requires 0 <= i < |ents| && ents[i] in catalog =>
           var t := catalog[ents[i]];
           ([prefix] + TwoDigits(i + 1),
            Params(kind, Target(t.system, subject, ents[i], t.repo, t.permission, origin)))))
  }

  function OriginOf(intent: Intent): string { if intent == SameAsPeer then "same_as_peer" else "onboarding" }

  function Candidates(intent: Intent, everything: bool, s: Subject, inputs: Inputs): Option<seq<(ActionId, Params)>>
    requires Iterates(inputs)
  {
    ActionsFor('A', "grant", OriginOf(intent), Wanted(intent, everything, s, inputs), s.id, inputs.catalog)
  }

  method BuildCandidates(intent: Intent, everything: bool, s: Subject, inputs: Inputs)
    returns (r: Option<seq<(ActionId, Params)>>)
    requires Iterates(inputs)
    ensures r == Candidates(intent, everything, s, inputs)
  {
    var wanted: seq<string> := [];
    if intent == SameAsPeer {
      wanted := Drop(inputs.peerHoldings, inputs.holdings);
    } else if intent == Onboarding {
      wanted := Drop(inputs.baseline, inputs.holdings);
      var repos := PickRepos(inputs, s.sowRepos, wanted);
      wanted := wanted + repos;
      if everything && s.team != "" {
        var team := PickTeam(inputs, s.team, wanted);
        wanted := wanted + team;
      }
    }
    r := ActionsFor('A', "grant", OriginOf(intent), wanted, s.id, inputs.catalog);
  }

  lemma RepoWantedFrom(inputs: Inputs, repos: seq<string>, wanted: seq<string>, i: nat)
    requires Iterates(inputs) && i < |repos|
    ensures var e := RepoEntitlement(inputs, inputs.names, repos[i]);
            RepoWanted(inputs, repos[i..], wanted) ==
            (if e.Some? && e.value !in wanted && e.value !in inputs.holdings then [e.value] else [])
            + RepoWanted(inputs, repos[i + 1..], wanted)
  {
    hide RepoEntitlement;
    assert repos[i..][1..] == repos[i + 1..];
  }

  method PickRepos(inputs: Inputs, repos: seq<string>, wanted: seq<string>) returns (r: seq<string>)
    requires Iterates(inputs)
    ensures r == RepoWanted(inputs, repos, wanted)
  {
    hide RepoEntitlement, RepoWanted;
    r := [];
    assert repos[0..] == repos;
    for i := 0 to |repos|
      invariant RepoWanted(inputs, repos, wanted) == r + RepoWanted(inputs, repos[i..], wanted)
    {
      var e := RepoEntitlement(inputs, inputs.names, repos[i]);
      RepoWantedFrom(inputs, repos, wanted, i);
      if e.Some? && e.value !in wanted && e.value !in inputs.holdings {
        r := r + [e.value];
      }
    }
    assert repos[|repos|..] == [];
    NoRepos(inputs, wanted);
  }

  lemma NoRepos(inputs: Inputs, wanted: seq<string>)
    requires Iterates(inputs)
    ensures RepoWanted(inputs, [], wanted) == []
  {
  }

  lemma TeamWantedFrom(inputs: Inputs, team: string, wanted: seq<string>, i: nat)
    requires Iterates(inputs) && i <= |inputs.names|
    ensures i == |inputs.names| ==> TeamWanted(inputs, inputs.names[i..], team, wanted) == []
    ensures i < |inputs.names| ==>
              var n := inputs.names[i];
              TeamWanted(inputs, inputs.names[i..], team, wanted) ==
              (if team in inputs.catalog[n].teams && n !in wanted && n !in inputs.holdings then [n] else [])
              + TeamWanted(inputs, inputs.names[i + 1..], team, wanted)
  {
    if i < |inputs.names| {
      assert inputs.names[i..][1..] == inputs.names[i + 1..];
    }
  }

  method PickTeam(inputs: Inputs, team: string, wanted: seq<string>) returns (r: seq<string>)
    requires Iterates(inputs)
    ensures r == TeamWanted(inputs, inputs.names, team, wanted)
  {
    hide TeamWanted;
    r := [];
    assert inputs.names[0..] == inputs.names;
    for i := 0 to |inputs.names|
      invariant TeamWanted(inputs, inputs.names, team, wanted) == r + TeamWanted(inputs, inputs.names[i..], team, wanted)
    {
      TeamWantedFrom(inputs, team, wanted, i);
      var n := inputs.names[i];
      if team in inputs.catalog[n].teams && n !in wanted && n !in inputs.holdings {
        r := r + [n];
      }
    }
    TeamWantedFrom(inputs, team, wanted, |inputs.names|);
  }

  method Drop(xs: seq<string>, held: seq<string>) returns (r: seq<string>)
    ensures r == Without(xs, held)
  {
    r := [];
    for i := 0 to |xs|
      invariant Without(xs, held) == r + Without(xs[i..], held)
    {
      if xs[i] !in held {
        r := r + [xs[i]];
      }
      assert xs[i..][1..] == xs[i + 1..];
    }
  }

  // --- the revocations of a transfer ----------------------------------------------------------------------------

  function OutOfRole(holdings: seq<string>, role: string, catalog: map<string, Entry>): seq<string>
    requires forall e :: e in holdings ==> e in catalog
  {
    if holdings == [] then []
    else (if role in catalog[holdings[0]].roleScope then [] else [holdings[0]]) + OutOfRole(holdings[1..], role, catalog)
  }

  function TransferRevokes(s: Subject, inputs: Inputs): Option<seq<(ActionId, Params)>> {
    if s.previousTeam == "" then Some([])
    else if exists e :: e in inputs.holdings && e !in inputs.catalog then None
    else ActionsFor('R', "revoke", "transfer", OutOfRole(inputs.holdings, s.role, inputs.catalog), s.id, inputs.catalog)
  }

  // --- verdicts and order ---------------------------------------------------------------------------------------

  /** Each action through the policy engine. */
  function Judged(actions: seq<(ActionId, Params)>, decide: Params -> Verdict): (r: seq<Candidate>)
    ensures |r| == |actions|
    ensures forall i :: 0 <= i < |r| ==> r[i] == Candidate(actions[i].0, actions[i].1, decide(actions[i].1))
  {
    if actions == [] then []
    else [Candidate(actions[0].0, actions[0].1, decide(actions[0].1))] + Judged(actions[1..], decide)
  }

  ghost predicate Decides(decide: Params -> Verdict) { forall p :: WellFormed(decide(p)) }

  /** Every candidate is decided and the verdict stamped on it once. */
  method Evaluate(actions: seq<(ActionId, Params)>, decide: Params -> Verdict) returns (r: seq<ActionView>)
    requires Decides(decide)
    ensures r == StampAll(Judged(actions, decide))
  {
    r := [];
    for i := 0 to |actions|
      invariant StampAll(Judged(actions, decide)) == r + StampAll(Judged(actions[i..], decide))
    {
      var a := new Action(actions[i].0, actions[i].1);
      var ok := a.ApplyVerdict(decide(a.params));
      assert ok;
      r := r + [a.View()];
      assert actions[i..][1..] == actions[i + 1..];
    }
  }

  /** Grants first, then transfer revokes, then holds, then refusals. */
  function PlanOf(grants: seq<(ActionId, Params)>, revokes: seq<(ActionId, Params)>, decide: Params -> Verdict)
    : seq<ActionView>
  {
    SortBy(StampAll(Judged(grants, decide)) + StampAll(Judged(revokes, decide)), PlanKey)
  }

  // --- properties -----------------------------------------------------------------------------------------------

  lemma {:induction false} StampAllAt(cs: seq<Candidate>)
    ensures |StampAll(cs)| == |cs|
    ensures forall i :: 0 <= i < |cs| ==> StampAll(cs)[i] == Stamped(cs[i].id, cs[i].params, cs[i].verdict)
  {
    if cs != [] {
      StampAllAt(cs[1..]);
    }
  }

  lemma {:induction false} WithoutAvoids(xs: seq<string>, held: seq<string>)
    ensures forall e :: e in Without(xs, held) <==> e in xs && e !in held
  {
    if xs != [] {
      WithoutAvoids(xs[1..], held);
      assert forall e :: e in xs <==> e == xs[0] || e in xs[1..];
    }
  }

  lemma {:induction false} RepoWantedAvoids(inputs: Inputs, repos: seq<string>, wanted: seq<string>)
    requires Iterates(inputs)
    ensures forall e :: e in RepoWanted(inputs, repos, wanted) ==> e !in inputs.holdings
  {
    if repos != [] {
      RepoWantedAvoids(inputs, repos[1..], wanted);
    }
  }

  lemma {:induction false} TeamWantedAvoids(inputs: Inputs, names: seq<string>, team: string, wanted: seq<string>)
    requires forall n :: n in names ==> n in inputs.catalog
    ensures forall e :: e in TeamWanted(inputs, names, team, wanted) ==> e !in inputs.holdings
  {
    if names != [] {
      TeamWantedAvoids(inputs, names[1..], team, wanted);
    }
  }

  /** Nothing the person already holds is ever asked for. */
  lemma WantedAvoidsHoldings(intent: Intent, everything: bool, s: Subject, inputs: Inputs)
    requires Iterates(inputs)
    ensures forall e :: e in Wanted(intent, everything, s, inputs) ==> e !in inputs.holdings
  {
    WithoutAvoids(inputs.peerHoldings, inputs.holdings);
    WithoutAvoids(inputs.baseline, inputs.holdings);
    var base := Without(inputs.baseline, inputs.holdings);
    RepoWantedAvoids(inputs, s.sowRepos, base);
    TeamWantedAvoids(inputs, inputs.names, s.team, base + RepoWanted(inputs, s.sowRepos, base));
  }

  lemma {:induction false} OutOfRoleIsHeld(holdings: seq<string>, role: string, catalog: map<string, Entry>)
    requires forall e :: e in holdings ==> e in catalog
    ensures forall e :: e in OutOfRole(holdings, role, catalog) ==> e in holdings
  {
    if holdings != [] {
      OutOfRoleIsHeld(holdings[1..], role, catalog);
      assert forall e :: e in holdings <==> e == holdings[0] || e in holdings[1..];
    }
  }

  ghost predicate DistinctIds(actions: seq<ActionView>) {
    forall i, j :: 0 <= i < j < |actions| ==> actions[i].id != actions[j].id
  }

  lemma NumberedIdsDiffer(prefix: char, other: char, m: nat, n: nat)
    requires prefix != other || m != n
    ensures [prefix] + TwoDigits(m) != [other] + TwoDigits(n)
  {
    TwoDigitsReadBack(m);
    TwoDigitsReadBack(n);
    assert ([prefix] + TwoDigits(m))[1..] == TwoDigits(m) && ([other] + TwoDigits(n))[1..] == TwoDigits(n);
  }

  /** What a plan guarantees about each action: its subject, and that grants add what is not held while revokes take
      what is. */
  ghost predicate Fits(a: ActionView, s: Subject, inputs: Inputs) {
    && a.params.target.subject == s.id
    && a.params.target.entitlement in inputs.catalog
    && ((a.params.kind == "grant" && a.params.target.entitlement !in inputs.holdings) ||
        (a.params.kind == "revoke" && a.params.target.entitlement in inputs.holdings))
  }

  /** Stamped actions of one list: numbered from 1, for this subject, one per entitlement. */
  lemma ListedActions(prefix: char, kind: string, origin: string, ents: seq<string>, subject: string,
                      catalog: map<string, Entry>, decide: Params -> Verdict)
    requires ActionsFor(prefix, kind, origin, ents, subject, catalog).Some?
    ensures var stamped := StampAll(Judged(ActionsFor(prefix, kind, origin, ents, subject, catalog).value, decide));
            && |stamped| == |ents|
            && forall i :: 0 <= i < |ents| ==>
                 var a := stamped[i];
                 && a == Stamped([prefix] + TwoDigits(i + 1), a.params, decide(a.params))
                 && a.params.kind == kind && a.params.target.subject == subject
                 && a.params.target.entitlement == ents[i] && ents[i] in catalog
  {
    var listed := ActionsFor(prefix, kind, origin, ents, subject, catalog).value;
    StampAllAt(Judged(listed, decide));
  }

  lemma ListsHaveDistinctIds(a: seq<ActionView>, b: seq<ActionView>)
    requires forall i :: 0 <= i < |a| ==> a[i].id == ['A'] + TwoDigits(i + 1)
    requires forall i :: 0 <= i < |b| ==> b[i].id == ['R'] + TwoDigits(i + 1)
    ensures DistinctIds(a + b)
  {
    var all, n := a + b, |a|;
    forall i, j | 0 <= i < j < |all| ensures all[i].id != all[j].id {
      NumberedIdsDiffer(if i < n then 'A' else 'R', if j < n then 'A' else 'R',
                        if i < n then i + 1 else i - n + 1, if j < n then j + 1 else j - n + 1);
    }
  }

  /** Each action of a list is numbered, fits the records and carries its engine verdict. */
  ghost predicate FitList(prefix: char, list: seq<ActionView>, s: Subject, inputs: Inputs, decide: Params -> Verdict) {
    forall i :: 0 <= i < |list| ==>
      && list[i] == Stamped([prefix] + TwoDigits(i + 1), list[i].params, decide(list[i].params))
      && Fits(list[i], s, inputs)
  }

  function GrantList(intent: Intent, everything: bool, s: Subject, inputs: Inputs, decide: Params -> Verdict)
    : seq<ActionView>
    requires Iterates(inputs) && Candidates(intent, everything, s, inputs).Some?
  {
    StampAll(Judged(Candidates(intent, everything, s, inputs).value, decide))
  }

  function RevokeList(s: Subject, inputs: Inputs, decide: Params -> Verdict): seq<ActionView>
    requires TransferRevokes(s, inputs).Some?
  {
    StampAll(Judged(TransferRevokes(s, inputs).value, decide))
  }

  lemma GrantsFit(intent: Intent, everything: bool, s: Subject, inputs: Inputs, decide: Params -> Verdict)
    requires Iterates(inputs) && Candidates(intent, everything, s, inputs).Some?
    ensures FitList('A', GrantList(intent, everything, s, inputs, decide), s, inputs, decide)
    ensures |GrantList(intent, everything, s, inputs, decide)| == |Candidates(intent, everything, s, inputs).value|
  {
    hide Wanted;
    var wanted := Wanted(intent, everything, s, inputs);
    WantedAvoidsHoldings(intent, everything, s, inputs);
    ListedActions('A', "grant", OriginOf(intent), wanted, s.id, inputs.catalog, decide);
    forall i | 0 <= i < |wanted| ensures wanted[i] !in inputs.holdings {
      assert wanted[i] in wanted;
    }
  }

  lemma RevokesFit(s: Subject, inputs: Inputs, decide: Params -> Verdict)
    requires TransferRevokes(s, inputs).Some?
    ensures FitList('R', RevokeList(s, inputs, decide), s, inputs, decide)
    ensures |RevokeList(s, inputs, decide)| == |TransferRevokes(s, inputs).value|
  {
    hide OutOfRole;
    if s.previousTeam != "" {
      var dropped := OutOfRole(inputs.holdings, s.role, inputs.catalog);
      OutOfRoleIsHeld(inputs.holdings, s.role, inputs.catalog);
      ListedActions('R', "revoke", "transfer", dropped, s.id, inputs.catalog, decide);
      forall i | 0 <= i < |dropped| ensures dropped[i] in inputs.holdings {
        assert dropped[i] in dropped;
      }
    }
  }

  /** Every planned action fits the records, carries its engine verdict, and has an id of its own; refusals are kept. */
  lemma PlanFits(intent: Intent, everything: bool, s: Subject, inputs: Inputs, decide: Params -> Verdict)
    requires Iterates(inputs)
    requires Candidates(intent, everything, s, inputs).Some? && TransferRevokes(s, inputs).Some?
    ensures var grants := Candidates(intent, everything, s, inputs).value;
            var revokes := TransferRevokes(s, inputs).value;
            var plan := PlanOf(grants, revokes, decide);
            && |plan| == |grants| + |revokes|
            && Sorted(plan, PlanKey)
            && DistinctIds(plan)
            && (forall a :: a in plan ==> Fits(a, s, inputs) && a == Stamped(a.id, a.params, decide(a.params)))
  {
    hide StampAll, Judged, Candidates, TransferRevokes, Fits, SortBy, PlanKey, Sorted, DistinctIds;
    var a := GrantList(intent, everything, s, inputs, decide);
    var b := RevokeList(s, inputs, decide);
    GrantsFit(intent, everything, s, inputs, decide);
    RevokesFit(s, inputs, decide);
    SortByPermutes(a + b, PlanKey);
    ListsHaveDistinctIds(a, b);
    PermutedIdsDistinct(a + b, SortBy(a + b, PlanKey));
  }

  lemma {:induction false} IdsOccurOnce(s: seq<ActionView>, x: ActionView)
    requires DistinctIds(s)
    ensures multiset(s)[x] <= 1
    decreases |s|
  {
    if s != [] {
      Uncons(s);
      IdsOccurOnce(s[1..], x);
    }
  }

  lemma Repeated<T>(t: seq<T>, i: nat, j: nat)
    requires i < j < |t| && t[i] == t[j]
    ensures multiset(t)[t[i]] >= 2
  {
    assert t == t[..j] + [t[j]] + t[j + 1..];
    assert t[i] in t[..j];
  }

  lemma PermutedIdsDistinct(s: seq<ActionView>, t: seq<ActionView>)
    requires DistinctIds(s) && multiset(s) == multiset(t)
    ensures DistinctIds(t)
  {
    forall i, j | 0 <= i < j < |t| && t[i].id == t[j].id ensures false {
      assert t[i] in multiset(s) && t[j] in multiset(s);
      assert t[i] in s && t[j] in s;
      Repeated(t, i, j);
      IdsOccurOnce(s, t[i]);
    }
  }

  // --- which actions a plan has ---------------------------------------------------------------------------------

  /** How many actions of a kind are about an entitlement. */
  function CountOf(actions: seq<ActionView>, kind: string, e: string): nat {
    if actions == [] then 0
    else (if actions[0].params.kind == kind && actions[0].params.target.entitlement == e then 1 else 0)
         + CountOf(actions[1..], kind, e)
  }

  lemma {:induction false} CountSorted(actions: seq<ActionView>, kind: string, e: string)
    ensures CountOf(SortBy(actions, PlanKey), kind, e) == CountOf(actions, kind, e)
  {
    hide PlanKey;
    if actions != [] {
      CountSorted(actions[1..], kind, e);
      CountInserted(actions[0], SortBy(actions[1..], PlanKey), kind, e);
    }
  }

  lemma {:induction false} CountInserted(a: ActionView, actions: seq<ActionView>, kind: string, e: string)
    ensures CountOf(Insert(a, actions, PlanKey), kind, e) == CountOf([a] + actions, kind, e)
    decreases |actions|
  {
    hide PlanKey;
    assert ([a] + actions)[1..] == actions;
    if actions != [] {
      CountInserted(a, actions[1..], kind, e);
      assert ([a] + actions[1..])[1..] == actions[1..];
      assert ([actions[0]] + Insert(a, actions[1..], PlanKey))[1..] == Insert(a, actions[1..], PlanKey);
    }
  }

  lemma {:induction false} CountConcat(a: seq<ActionView>, b: seq<ActionView>, kind: string, e: string)
    ensures CountOf(a + b, kind, e) == CountOf(a, kind, e) + CountOf(b, kind, e)
    decreases |a|
  {
    if a == [] {
      assert a + b == b;
    } else {
      CountConcat(a[1..], b, kind, e);
      assert (a + b)[1..] == a[1..] + b;
    }
  }

  /** A list of stamped actions, one per entitlement of `ents`. */
  lemma {:induction false} CountListed(actions: seq<ActionView>, ents: seq<string>, kind: string, other: string, e: string)
    requires |actions| == |ents| && kind != other
    requires forall i :: 0 <= i < |ents| ==> actions[i].params.kind == kind && actions[i].params.target.entitlement == ents[i]
    ensures CountOf(actions, kind, e) == multiset(ents)[e] && CountOf(actions, other, e) == 0
    decreases |actions|
  {
    if ents != [] {
      Uncons(ents);
      CountListed(actions[1..], ents[1..], kind, other, e);
    }
  }

  lemma {:induction false} OutOfRoleIs(holdings: seq<string>, role: string, catalog: map<string, Entry>, e: string)
    requires forall h :: h in holdings ==> h in catalog
    ensures multiset(OutOfRole(holdings, role, catalog))[e] ==
            if e in catalog && role !in catalog[e].roleScope then multiset(holdings)[e] else 0
  {
    if holdings != [] {
      OutOfRoleIs(holdings[1..], role, catalog, e);
      assert holdings == [holdings[0]] + holdings[1..];
    }
  }

  /** The two lists a plan is made of, counted. */
  lemma PlanCounts(intent: Intent, everything: bool, s: Subject, inputs: Inputs, decide: Params -> Verdict, e: string)
    requires Iterates(inputs)
    requires Candidates(intent, everything, s, inputs).Some? && TransferRevokes(s, inputs).Some?
    ensures var plan := PlanOf(Candidates(intent, everything, s, inputs).value, TransferRevokes(s, inputs).value, decide);
            && CountOf(plan, "grant", e) == multiset(Wanted(intent, everything, s, inputs))[e]
            && CountOf(plan, "revoke", e) ==
               if s.previousTeam == "" then 0 else multiset(OutOfRole(inputs.holdings, s.role, inputs.catalog))[e]
  {
    hide Wanted, SortBy, PlanKey, OutOfRole, CountOf, StampAll, Judged, ActionsFor;
    var a := GrantList(intent, everything, s, inputs, decide);
    var b := RevokeList(s, inputs, decide);
    var wanted := Wanted(intent, everything, s, inputs);
    CountSorted(a + b, "grant", e);
    CountSorted(a + b, "revoke", e);
    CountConcat(a, b, "grant", e);
    CountConcat(a, b, "revoke", e);
    ListedActions('A', "grant", OriginOf(intent), wanted, s.id, inputs.catalog, decide);
    CountListed(a, wanted, "grant", "revoke", e);
    if s.previousTeam != "" {
      var dropped := OutOfRole(inputs.holdings, s.role, inputs.catalog);
      ListedActions('R', "revoke", "transfer", dropped, s.id, inputs.catalog, decide);
      CountListed(b, dropped, "revoke", "grant", e);
    } else {
      NothingListed(decide, e);
    }
  }

  lemma NothingListed(decide: Params -> Verdict, e: string)
    ensures StampAll(Judged([], decide)) == [] && CountOf([], "grant", e) == 0 && CountOf([], "revoke", e) == 0
  {
  }

  /** Which access a plan takes away: with a previous team on record, one revoke per copy held of everything whose role scope
      does not have the person's role; and nothing otherwise. */
  lemma TransfersRevokeExactly(intent: Intent, everything: bool, s: Subject, inputs: Inputs, decide: Params -> Verdict, e: string)
    requires Iterates(inputs)
    requires Candidates(intent, everything, s, inputs).Some? && TransferRevokes(s, inputs).Some?
    ensures var plan := PlanOf(Candidates(intent, everything, s, inputs).value, TransferRevokes(s, inputs).value, decide);
            CountOf(plan, "revoke", e) ==
            if s.previousTeam != "" && e in inputs.catalog && s.role !in inputs.catalog[e].roleScope
            then multiset(inputs.holdings)[e] else 0
  {
    hide Candidates, PlanOf, OutOfRole;
    PlanCounts(intent, everything, s, inputs, decide, e);
    if s.previousTeam != "" {
      OutOfRoleIs(inputs.holdings, s.role, inputs.catalog, e);
    }
  }

  // --- which access is wanted -----------------------------------------------------------------------------------

  /** The entitlement that stands for a repository: among the catalogue's GitHub entries for it, the last one iterated. */
  ghost predicate StandsFor(inputs: Inputs, repo: string, e: string)
    requires Iterates(inputs)
  {
    exists i :: 0 <= i < |inputs.names| && inputs.names[i] == e &&
                inputs.catalog[e].system == "github" && inputs.catalog[e].repo == repo &&
                forall k :: i < k < |inputs.names| ==>
                  !(inputs.catalog[inputs.names[k]].system == "github" && inputs.catalog[inputs.names[k]].repo == repo)
  }

  lemma {:induction false} RepoEntitlementIs(inputs: Inputs, names: seq<string>, repo: string)
    requires forall n :: n in names ==> n in inputs.catalog
    ensures var e := RepoEntitlement(inputs, names, repo);
            && (e.Some? ==>
                  exists i :: 0 <= i < |names| && names[i] == e.value &&
                    inputs.catalog[names[i]].system == "github" && inputs.catalog[names[i]].repo == repo &&
                    forall k :: i < k < |names| ==>
                      !(inputs.catalog[names[k]].system == "github" && inputs.catalog[names[k]].repo == repo))
            && (e.None? ==> forall i :: 0 <= i < |names| ==>
                  !(inputs.catalog[names[i]].system == "github" && inputs.catalog[names[i]].repo == repo))
    decreases |names|
  {
    if names != [] {
      var n := |names| - 1;
      if !(inputs.catalog[names[n]].system == "github" && inputs.catalog[names[n]].repo == repo) {
        RepoEntitlementIs(inputs, names[..n], repo);
      } else {
        assert names[n] == RepoEntitlement(inputs, names, repo).value;
      }
    }
  }

  lemma StandsForOne(inputs: Inputs, repo: string, e: string)
    requires Iterates(inputs)
    ensures StandsFor(inputs, repo, e) <==> RepoEntitlement(inputs, inputs.names, repo) == Some(e)
  {
    RepoEntitlementIs(inputs, inputs.names, repo);
    if StandsFor(inputs, repo, e) {
      var i :| 0 <= i < |inputs.names| && inputs.names[i] == e &&
               inputs.catalog[e].system == "github" && inputs.catalog[e].repo == repo &&
               forall k :: i < k < |inputs.names| ==>
                 !(inputs.catalog[inputs.names[k]].system == "github" && inputs.catalog[inputs.names[k]].repo == repo);
    }
  }

  lemma {:induction false} ReposWanted(inputs: Inputs, repos: seq<string>, wanted: seq<string>, e: string)
    requires Iterates(inputs)
    ensures e in RepoWanted(inputs, repos, wanted) <==>
            e !in wanted && e !in inputs.holdings && exists r :: r in repos && StandsFor(inputs, r, e)
  {
    hide StandsFor, RepoEntitlement;
    if repos != [] {
      StandsForOne(inputs, repos[0], e);
      ReposWanted(inputs, repos[1..], wanted, e);
      assert forall r :: r in repos <==> r == repos[0] || r in repos[1..];
    }
  }

  lemma {:induction false} TeamIsWanted(inputs: Inputs, names: seq<string>, team: string, wanted: seq<string>, e: string)
    requires forall n :: n in names ==> n in inputs.catalog
    ensures e in TeamWanted(inputs, names, team, wanted) <==>
            e in names && team in inputs.catalog[e].teams && e !in wanted && e !in inputs.holdings
  {
    if names != [] {
      TeamIsWanted(inputs, names[1..], team, wanted, e);
    }
  }

  /** What is asked for: what the peer holds; or, on joining, the role's baseline, what stands for the repositories of the
      statement of work and, if everything was asked for, what the team has. Never what is held, and nothing else. */
  lemma WantedExactly(intent: Intent, everything: bool, s: Subject, inputs: Inputs, e: string)
    requires Iterates(inputs)
    ensures e in Wanted(intent, everything, s, inputs) <==>
              && e !in inputs.holdings
              && ((intent.SameAsPeer? && e in inputs.peerHoldings) ||
                  (intent.Onboarding? && e in inputs.baseline) ||
                  (intent.Onboarding? && exists r :: r in s.sowRepos && StandsFor(inputs, r, e)) ||
                  (intent.Onboarding? && everything && s.team != "" && e in inputs.names && s.team in inputs.catalog[e].teams))
  {
    hide StandsFor;
    WithoutAvoids(inputs.peerHoldings, inputs.holdings);
    WithoutAvoids(inputs.baseline, inputs.holdings);
    var base := Without(inputs.baseline, inputs.holdings);
    var repos := RepoWanted(inputs, s.sowRepos, base);
    ReposWanted(inputs, s.sowRepos, base, e);
    TeamIsWanted(inputs, inputs.names, s.team, base + repos, e);
  }

  /** ... in this order: the baseline first, then the repositories, then the team; nothing is asked for twice on two of these
      grounds. */
  lemma WantedInOrder(everything: bool, s: Subject, inputs: Inputs)
    requires Iterates(inputs)
    ensures exists b, r, t ::
              && Wanted(Onboarding, everything, s, inputs) == b + r + t
              && (forall e :: e in b ==> e in inputs.baseline)
              && (forall e :: e in r ==> e !in b && exists repo :: repo in s.sowRepos && StandsFor(inputs, repo, e))
              && (forall e :: e in t ==> e !in b + r && everything && e in inputs.names && s.team in inputs.catalog[e].teams)
  {
    hide StandsFor, RepoWanted, TeamWanted;
    var b := Without(inputs.baseline, inputs.holdings);
    var r := RepoWanted(inputs, s.sowRepos, b);
    var t := if everything && s.team != "" then TeamWanted(inputs, inputs.names, s.team, b + r) else [];
    WithoutAvoids(inputs.baseline, inputs.holdings);
    forall e | e in r ensures e !in b && exists repo :: repo in s.sowRepos && StandsFor(inputs, repo, e) {
      ReposWanted(inputs, s.sowRepos, b, e);
    }
    forall e | e in t ensures e !in b + r && everything && e in inputs.names && s.team in inputs.catalog[e].teams {
      TeamIsWanted(inputs, inputs.names, s.team, b + r, e);
    }
    assert Wanted(Onboarding, everything, s, inputs) == b + r + t;
  }

  /** Filters go through a list from the front. */
  lemma {:induction false} WithoutKeepsOrder(xs: seq<string>, ys: seq<string>, held: seq<string>)
    ensures Without(xs + ys, held) == Without(xs, held) + Without(ys, held)
    decreases |xs|
  {
    if xs == [] {
      assert xs + ys == ys;
    } else {
      assert (xs + ys)[1..] == xs[1..] + ys;
      WithoutKeepsOrder(xs[1..], ys, held);
    }
  }

  lemma {:induction false} OutOfRoleKeepsOrder(xs: seq<string>, ys: seq<string>, role: string, catalog: map<string, Entry>)
    requires forall h :: h in xs ==> h in catalog
    requires forall h :: h in ys ==> h in catalog
    ensures OutOfRole(xs + ys, role, catalog) == OutOfRole(xs, role, catalog) + OutOfRole(ys, role, catalog)
    decreases |xs|
  {
    if xs == [] {
      assert xs + ys == ys;
    } else {
      assert (xs + ys)[1..] == xs[1..] + ys;
      OutOfRoleKeepsOrder(xs[1..], ys, role, catalog);
    }
  }

  // --- how a plan is written down -------------------------------------------------------------------------------

  /** A plan's actions carry the catalogue's entry for their entitlement, and where they come from. */
  lemma PlanTargets(intent: Intent, everything: bool, s: Subject, inputs: Inputs, decide: Params -> Verdict, a: ActionView)
    requires Iterates(inputs)
    requires Candidates(intent, everything, s, inputs).Some? && TransferRevokes(s, inputs).Some?
    requires a in PlanOf(Candidates(intent, everything, s, inputs).value, TransferRevokes(s, inputs).value, decide)
    ensures var e := a.params.target.entitlement;
            && e in inputs.catalog
            && a.params.target == Target(inputs.catalog[e].system, s.id, e, inputs.catalog[e].repo, inputs.catalog[e].permission,
                                         if a.params.kind == "revoke" then "transfer"
                                         else if intent.SameAsPeer? then "same_as_peer" else "onboarding")
  {
    hide Wanted, SortBy, PlanKey, OutOfRole, ActionsFor, StampAll, Judged;
    var grants, revokes := GrantList(intent, everything, s, inputs, decide), RevokeList(s, inputs, decide);
    SortByPermutes(grants + revokes, PlanKey);
    assert a in grants || a in revokes;
    ListTargets('A', "grant", OriginOf(intent), Wanted(intent, everything, s, inputs), s.id, inputs.catalog, decide, a);
    if s.previousTeam != "" {
      ListTargets('R', "revoke", "transfer", OutOfRole(inputs.holdings, s.role, inputs.catalog), s.id, inputs.catalog, decide, a);
    } else {
      assert revokes == [] by { NothingStamped(decide); }
    }
  }

  lemma NothingStamped(decide: Params -> Verdict)
    ensures StampAll(Judged([], decide)) == []
  {
  }

  lemma ListTargets(prefix: char, kind: string, origin: string, ents: seq<string>, subject: string, catalog: map<string, Entry>,
                    decide: Params -> Verdict, a: ActionView)
    requires ActionsFor(prefix, kind, origin, ents, subject, catalog).Some?
    ensures a in StampAll(Judged(ActionsFor(prefix, kind, origin, ents, subject, catalog).value, decide)) ==>
              var e := a.params.target.entitlement;
              && e in catalog && a.params.kind == kind
              && a.params.target == Target(catalog[e].system, subject, e, catalog[e].repo, catalog[e].permission, origin)
  {
    StampAllAt(Judged(ActionsFor(prefix, kind, origin, ents, subject, catalog).value, decide));
  }

  /** The ids of the candidates count them from one, in the order they are wanted; those of the revokes likewise. */
  lemma ListsAreNumbered(intent: Intent, everything: bool, s: Subject, inputs: Inputs)
    requires Iterates(inputs)
    ensures var grants, wanted := Candidates(intent, everything, s, inputs), Wanted(intent, everything, s, inputs);
            && (grants.None? <==> exists e :: e in wanted && e !in inputs.catalog)
            && (grants.Some? ==> |grants.value| == |wanted|)
            && (grants.Some? ==>
                  forall i :: 0 <= i < |wanted| ==>
                    grants.value[i].0 == "A" + TwoDigits(i + 1) && grants.value[i].1.kind == "grant" &&
                    grants.value[i].1.target.entitlement == wanted[i])
    ensures var revokes := TransferRevokes(s, inputs);
            && (revokes.None? <==> s.previousTeam != "" && exists e :: e in inputs.holdings && e !in inputs.catalog)
            && (revokes.Some? ==> forall i :: 0 <= i < |revokes.value| ==>
                  revokes.value[i].0 == "R" + TwoDigits(i + 1) && revokes.value[i].1.kind == "revoke")
  {
    hide Wanted, OutOfRole, TwoDigits;
    if s.previousTeam != "" && forall e :: e in inputs.holdings ==> e in inputs.catalog {
      OutOfRoleIsHeld(inputs.holdings, s.role, inputs.catalog);
    }
  }

  /** The order of a plan: allowed grants, then allowed revokes, then what is held for somebody, then what is refused; and by
      id where this does not tell. */
  lemma PlanIsRanked(grants: seq<(ActionId, Params)>, revokes: seq<(ActionId, Params)>, decide: Params -> Verdict, i: nat, j: nat)
    requires i < j < |PlanOf(grants, revokes, decide)|
    ensures var a, b := PlanOf(grants, revokes, decide)[i], PlanOf(grants, revokes, decide)[j];
            && (a.verdict == Some(ALLOW) && a.params.kind != "grant" ==> !(b.verdict == Some(ALLOW) && b.params.kind == "grant"))
            && (a.verdict == Some(HOLD) ==> b.verdict != Some(ALLOW))
            && (a.verdict == Some(REFUSE) ==> b.verdict == Some(REFUSE))
            && (a.verdict == b.verdict && (a.verdict == Some(ALLOW) ==> (a.params.kind == "grant") == (b.params.kind == "grant")) ==>
                  StrLe(a.id, b.id))
  {
    hide SortBy, PlanKey, StampAll, Judged;
    var all := StampAll(Judged(grants, decide)) + StampAll(Judged(revokes, decide));
    var plan := SortBy(all, PlanKey);
    SortByPermutes(all, PlanKey);
    StampAllAt(Judged(grants, decide));
    StampAllAt(Judged(revokes, decide));
    SortedAt(plan, i, j);
    assert plan[i] in multiset(all) && plan[j] in multiset(all);
    assert forall a :: a in all ==> a.verdict.Some?;
    KeysRank(plan[i], plan[j]);
  }

  lemma {:induction false} SortedAt(s: seq<ActionView>, i: nat, j: nat)
    requires Sorted(s, PlanKey) && i < j < |s|
    ensures StrLe(PlanKey(s[i]), PlanKey(s[j]))
    decreases |s|
  {
    hide PlanKey;
    if i == 0 {
      assert s[j] == s[1..][j - 1];
    } else {
      SortedAt(s[1..], i - 1, j - 1);
    }
  }

  lemma KeysRank(a: ActionView, b: ActionView)
    requires StrLe(PlanKey(a), PlanKey(b)) && a.verdict.Some? && b.verdict.Some?
    ensures (a.verdict == Some(ALLOW) && a.params.kind != "grant" ==> !(b.verdict == Some(ALLOW) && b.params.kind == "grant"))
    ensures (a.verdict == Some(HOLD) ==> b.verdict != Some(ALLOW)) && (a.verdict == Some(REFUSE) ==> b.verdict == Some(REFUSE))
    ensures a.verdict == b.verdict && (a.verdict == Some(ALLOW) ==> (a.params.kind == "grant") == (b.params.kind == "grant")) ==>
              StrLe(a.id, b.id)
  {
    assert PlanKey(a)[1..] == a.id && PlanKey(b)[1..] == b.id;
    var c, d := PlanKey(a)[0], PlanKey(b)[0];
    assert c <= d;
    assert a.verdict == Some(REFUSE) ==> c == '3';
    assert b.verdict == Some(HOLD) ==> d == '2';
    match b.verdict.value {
      case ALLOW => assert d == '0' || d == '1';
      case HOLD =>
      case REFUSE =>
    }
  }
}
