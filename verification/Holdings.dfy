/** What the passes of a run do to holdings: how many copies of each entitlement the person ends with, and that nobody
    else's holdings change. */
module Holdings {
  import opened Models
  import opened Connector
  import opened Execute
  import opened FinalizeStage
  import opened Protocol
  import opened GovernPlan
  import opened PassSpec

  /** An action this pass writes to the entitlements system. */
  predicate WritesEntitlement(a: ActionView) { IsExecutable(a) && !ToGitHub(a.params) }

  function EntOf(a: ActionView): string { a.params.target.entitlement }

  /** How often a person holds an entitlement; holdings may repeat one. */
  function Copies(body: Body, person: string, e: string): nat
    requires body.Entitlements?
  {
    multiset(Held(body, person))[e]
  }

  /** A grant adds the first copy, a revoke takes one away. */
  function WriteCopies(h: nat, a: ActionView, e: string): nat {
    if !WritesEntitlement(a) || EntOf(a) != e then h
    else if a.params.kind == "grant" then (if h == 0 then 1 else h)
    else if h == 0 then 0 else h - 1
  }

  function AllCopies(h: nat, actions: seq<ActionView>, e: string): nat
    decreases |actions|
  {
    if actions == [] then h else AllCopies(WriteCopies(h, actions[0], e), actions[1..], e)
  }

  function WrittenKeys(run: RunId, actions: seq<ActionView>): set<Key> {
    if actions == [] then {}
    else (if WritesEntitlement(actions[0]) then {Key(run, actions[0].id, actions[0].params)} else {})
         + WrittenKeys(run, actions[1..])
  }

  /** No fault is injected, and every entitlement action names a known entitlement of the person under a fresh key. */
  ghost predicate Clean(doc: Doc, run: RunId, actions: seq<ActionView>, subject: string) {
    && doc.body.Entitlements? && doc.faults == map[] && subject != ""
    && forall i :: 0 <= i < |actions| && WritesEntitlement(actions[i]) ==>
         && actions[i].params.kind in {"grant", "revoke"}
         && actions[i].params.target.subject == subject
         && EntOf(actions[i]) != "" && EntOf(actions[i]) in doc.body.catalog
         && Key(run, actions[i].id, actions[i].params) !in doc.ledger
  }

  // --- one pass -------------------------------------------------------------------------------------------------

  lemma CopiesChange(held: seq<string>, a: ActionView)
    requires WritesEntitlement(a) && a.params.kind in {"grant", "revoke"}
    ensures var next := if a.params.kind == "grant" then (if EntOf(a) in held then held else held + [EntOf(a)])
                        else if EntOf(a) in held then RemoveFirst(held, EntOf(a)) else held;
            forall e :: multiset(next)[e] == WriteCopies(multiset(held)[e], a, e)
  {
  }

  /** One clean write of a grant or a revoke. */
  lemma CleanWrite(docs: Docs, run: RunId, a: ActionView, subject: string)
    requires Clean(docs.ent, run, [a], subject) && WritesEntitlement(a)
    ensures var (d, r) := ExecutedOne(docs, run, a);
            && r.state == Executed
            && d.ent.body.Entitlements? && d.ent.body.catalog == docs.ent.body.catalog && d.ent.faults == map[]
            && d.ent.ledger == docs.ent.ledger + {Key(run, a.id, a.params)}
            && (forall p :: p != subject ==> Held(d.ent.body, p) == Held(docs.ent.body, p))
            && (forall e :: Copies(d.ent.body, subject, e) == WriteCopies(Copies(docs.ent.body, subject, e), a, e))
  {
    hide ExecuteFrom, WriteCopies;
    assert [a][0] == a;
    CopiesChange(Held(docs.ent.body, subject), a);
    CleanExecution(docs.ent, Key(run, a.id, a.params), MAX_ATTEMPTS);
  }

  /** The documents after the writes of a pass. */
  ghost predicate Wrote(before: Doc, after: Doc, run: RunId, actions: seq<ActionView>, subject: string) {
    && before.body.Entitlements? && after.body.Entitlements?
    && after.body.catalog == before.body.catalog && after.faults == map[]
    && after.ledger == before.ledger + WrittenKeys(run, actions)
    && (forall p :: p != subject ==> Held(after.body, p) == Held(before.body, p))
    && (forall e :: Copies(after.body, subject, e) == AllCopies(Copies(before.body, subject, e), actions, e))
  }

  lemma CleanTail(docs: Docs, d: Docs, run: RunId, actions: seq<ActionView>, subject: string)
    requires actions != [] && Clean(docs.ent, run, actions, subject) && DistinctIds(actions)
    requires d.ent.body.Entitlements? && d.ent.body.catalog == docs.ent.body.catalog && d.ent.faults == map[]
    requires d.ent.ledger <= docs.ent.ledger + {Key(run, actions[0].id, actions[0].params)}
    ensures Clean(d.ent, run, actions[1..], subject) && DistinctIds(actions[1..])
    ensures Clean(docs.ent, run, [actions[0]], subject)
  {
    var tail := actions[1..];
    assert forall i :: 0 <= i < |tail| ==> tail[i] == actions[i + 1];
    assert actions[0] == [actions[0]][0];
  }

  lemma NothingWritten(docs: Docs, run: RunId, a: ActionView)
    requires !WritesEntitlement(a)
    ensures var (d, r) := ExecutedOne(docs, run, a); d.ent == docs.ent
    ensures forall h: nat, e :: WriteCopies(h, a, e) == h
  {
    hide ExecuteFrom;
  }

  lemma {:induction false} ExecutedHoldings(docs: Docs, run: RunId, actions: seq<ActionView>, subject: string)
    requires Clean(docs.ent, run, actions, subject) && DistinctIds(actions)
    ensures var (d, r) := ExecutedAll(docs, run, actions);
            && Wrote(docs.ent, d.ent, run, actions, subject)
            && (forall i :: 0 <= i < |actions| && WritesEntitlement(actions[i]) ==> r[i].state == Executed)
    decreases |actions|
  {
    if actions != [] {
      hide ExecutedOne, Clean, DistinctIds, Copies, WriteCopies, WritesEntitlement, Held;
      var a, tail := actions[0], actions[1..];
      var (d, a1) := ExecutedOne(docs, run, a);
      assert docs.ent.body.Entitlements? && docs.ent.faults == map[] by { CleanMeans(docs.ent, run, actions, subject); }
      if WritesEntitlement(a) {
        CleanTail(docs, docs, run, actions, subject);
        CleanWrite(docs, run, a, subject);
      } else {
        NothingWritten(docs, run, a);
      }
      CleanTail(docs, d, run, actions, subject);
      ExecutedHoldings(d, run, tail, subject);
    }
  }

  lemma CleanMeans(doc: Doc, run: RunId, actions: seq<ActionView>, subject: string)
    requires Clean(doc, run, actions, subject)
    ensures doc.body.Entitlements? && doc.faults == map[] && subject != ""
    ensures forall i :: 0 <= i < |actions| && WritesEntitlement(actions[i]) ==>
              actions[i].params.kind in {"grant", "revoke"} && actions[i].params.target.subject == subject && EntOf(actions[i]) != ""
  {
  }

  /** A fault-free pass, whatever the person held and whatever the plan does to it: each entitlement ends with the copies
      that its grants and revokes leave, in plan order; a written action is verified exactly when the person then holds what
      a grant wants, or nothing of what a revoke wants gone; and nobody else's holdings change. */
  lemma PassHoldings(docs: Docs, approvals: map<(RunId, ActionId), Approval>, c: Case, subject: string)
    requires Clean(docs.ent, c.run, AfterDecisions(approvals, c).actions, subject) && DistinctIds(c.actions)
    requires AfterDecisions(approvals, c).blockers == []
    ensures var x := AfterDecisions(approvals, c).actions;
            var r := Continued(docs, approvals, c);
            && Wrote(docs.ent, r.docs.ent, c.run, x, subject)
            && (forall i :: 0 <= i < |x| && WritesEntitlement(x[i]) ==>
                  r.kase.actions[i].state ==
                  if (Copies(r.docs.ent.body, subject, EntOf(x[i])) > 0) == (x[i].params.kind == "grant") then Verified else Failed)
  {
    hide ExecutedAll, AfterDecisions, VerifyOne, Clean, Wrote, WritesEntitlement;
    var decided := AfterDecisions(approvals, c);
    var x := decided.actions;
    DecidedSameIds(approvals, c);
    ExecutedHoldings(docs, c.run, x, subject);
    var (d, written) := ExecutedAll(docs, c.run, x);
    var r := Continued(docs, approvals, c);
    assert r.docs == d && r.kase.actions == VerifiedAll(d, written);
    CleanMeans(docs.ent, c.run, x, subject);
    assert d.ent.body.Entitlements? by { assert Wrote(docs.ent, d.ent, c.run, x, subject); WroteMeans(docs.ent, d.ent, c.run, x, subject); }
    forall i | 0 <= i < |x| && WritesEntitlement(x[i])
      ensures r.kase.actions[i].state ==
              if (Copies(d.ent.body, subject, EntOf(x[i])) > 0) == (x[i].params.kind == "grant") then Verified else Failed
    {
      ExecutedSame(docs, decided.run, x, i);
      ReadsBack(d, x[i], written[i], subject);
    }
  }

  lemma WroteMeans(before: Doc, after: Doc, run: RunId, actions: seq<ActionView>, subject: string)
    requires Wrote(before, after, run, actions, subject)
    ensures after.body.Entitlements?
  {
  }

  lemma DecidedSameIds(approvals: map<(RunId, ActionId), Approval>, c: Case)
    requires DistinctIds(c.actions)
    ensures DistinctIds(AfterDecisions(approvals, c).actions) && AfterDecisions(approvals, c).run == c.run
  {
    var x := AfterDecisions(approvals, c).actions;
    assert forall i :: 0 <= i < |x| ==> x[i].id == c.actions[i].id;
  }

  lemma ReadsBack(d: Docs, a: ActionView, written: ActionView, subject: string)
    requires WritesEntitlement(a) && written == a.(state := Executed) && d.ent.body.Entitlements?
    requires a.params.target.subject == subject && subject != "" && EntOf(a) != ""
    ensures VerifyOne(d, written).state ==
            if (Copies(d.ent.body, subject, EntOf(a)) > 0) == (a.params.kind == "grant") then Verified else Failed
  {
  }

  lemma {:induction false} ExecutedSame(docs: Docs, run: RunId, actions: seq<ActionView>, i: nat)
    requires i < |actions|
    ensures var r := ExecutedAll(docs, run, actions).1[i]; r == actions[i].(state := r.state)
    decreases |actions|
  {
    if i > 0 {
      ExecutedSame(ExecutedOne(docs, run, actions[0]).0, run, actions[1..], i - 1);
    }
  }

  // --- all passes of a run --------------------------------------------------------------------------------------

  /** The passes of a run that nothing else comes between: each starts from the documents and the case of the one before,
      with the decisions recorded by then. */
  function CarriedOn(docs: Docs, c: Case, approvals: seq<map<(RunId, ActionId), Approval>>): (Docs, Case)
    decreases |approvals|
  {
    if approvals == [] then (docs, c)
    else
      var r := Continued(docs, approvals[0], c);
      CarriedOn(r.docs, r.kase, approvals[1..])
  }

  /** The action has been written. */
  predicate IsDone(a: ActionView) { !ToGitHub(a.params) && a.state in {Verified, Failed} }

  function DoneCount(actions: seq<ActionView>, kind: string, e: string): nat {
    if actions == [] then 0
    else (if IsDone(actions[0]) && actions[0].params.kind == kind && EntOf(actions[0]) == e then 1 else 0)
         + DoneCount(actions[1..], kind, e)
  }

  function WriteCount(actions: seq<ActionView>, kind: string, e: string): nat {
    if actions == [] then 0
    else (if WritesEntitlement(actions[0]) && actions[0].params.kind == kind && EntOf(actions[0]) == e then 1 else 0)
         + WriteCount(actions[1..], kind, e)
  }

  function Less(h: nat, n: nat): nat { if h < n then 0 else h - n }

  /** What is left of h copies when the actions done so far are taken into account. */
  function Expected(h: nat, actions: seq<ActionView>, e: string): nat {
    if DoneCount(actions, "grant", e) > 0 then 1 else Less(h, DoneCount(actions, "revoke", e))
  }

  /** What an entitlement's actions do to it when they are all of one kind. */
  lemma {:induction false} OneKind(h: nat, actions: seq<ActionView>, e: string, kind: string)
    requires kind in {"grant", "revoke"}
    requires forall i :: 0 <= i < |actions| && EntOf(actions[i]) == e ==> actions[i].params.kind == kind
    ensures var n := WriteCount(actions, kind, e);
            AllCopies(h, actions, e) == if kind == "revoke" then Less(h, n) else if n > 0 && h == 0 then 1 else h
    decreases |actions|
  {
    if actions != [] {
      assert forall i :: 0 <= i < |actions[1..]| ==> actions[1..][i] == actions[i + 1];
      OneKind(WriteCopies(h, actions[0], e), actions[1..], e, kind);
    }
  }

  lemma {:induction false} NoneDone(actions: seq<ActionView>, kind: string, e: string)
    requires forall i :: 0 <= i < |actions| && EntOf(actions[i]) == e ==> actions[i].params.kind != kind
    ensures DoneCount(actions, kind, e) == 0
  {
    if actions != [] {
      assert forall i :: 0 <= i < |actions[1..]| ==> actions[1..][i] == actions[i + 1];
      NoneDone(actions[1..], kind, e);
    }
  }

  lemma {:induction false} DoneIsCounted(actions: seq<ActionView>, i: nat)
    requires i < |actions| && IsDone(actions[i])
    ensures DoneCount(actions, actions[i].params.kind, EntOf(actions[i])) > 0
  {
    if i > 0 {
      assert actions[1..][i - 1] == actions[i];
      DoneIsCounted(actions[1..], i - 1);
    }
  }

  /** One action before a pass, after the decisions, and after the pass. */
  ghost predicate Progress(a: ActionView, x: ActionView, r: ActionView, blocked: bool) {
    && x.params == a.params && r.params == a.params && x.id == a.id && r.id == a.id
    && (WritesEntitlement(x) ==> !IsDone(a))
    && (IsDone(r) <==> IsDone(a) || (!blocked && WritesEntitlement(x)))
    && (IsDone(a) ==> r == a)
  }

  ghost predicate AllProgress(c: seq<ActionView>, x: seq<ActionView>, r: seq<ActionView>, blocked: bool) {
    |x| == |c| && |r| == |c| && forall i :: 0 <= i < |c| ==> Progress(c[i], x[i], r[i], blocked)
  }

  lemma {:induction false} DoneGrows(c: seq<ActionView>, x: seq<ActionView>, r: seq<ActionView>, blocked: bool, kind: string, e: string)
    requires AllProgress(c, x, r, blocked)
    ensures DoneCount(r, kind, e) == DoneCount(c, kind, e) + if blocked then 0 else WriteCount(x, kind, e)
    decreases |c|
  {
    if c != [] {
      assert Progress(c[0], x[0], r[0], blocked);
      assert forall i :: 0 <= i < |c[1..]| ==> c[1..][i] == c[i + 1] && x[1..][i] == x[i + 1] && r[1..][i] == r[i + 1];
      DoneGrows(c[1..], x[1..], r[1..], blocked, kind, e);
    }
  }

  lemma ActionProgress(docs: Docs, a: ActionView, b: ActionView, x: ActionView, blocked: bool)
    requires Lawful(a) && a.verdict.Some? && Startable(a)
    requires b == a || (a.state == Awaiting && a.verdict == Some(HOLD) && b == a.(state := b.state) &&
                        b.state in {Approved, Refused})
    requires x == b.(state := x.state)
    requires if !blocked && IsExecutable(b) then x.state in {Executed, Failed, Unknown} else x == b
    ensures Progress(a, b, VerifyOne(docs, x), blocked)
  {
    hide ReadBack, ToGitHub;
  }

  /** How each action of a case that a pass may start from gets through the pass. */
  lemma PassProgress(docs: Docs, approvals: map<(RunId, ActionId), Approval>, c: Case)
    requires AllLawful(c.actions) && forall i :: 0 <= i < |c.actions| ==> Startable(c.actions[i])
    ensures var d := AfterDecisions(approvals, c);
            AllProgress(c.actions, d.actions, Continued(docs, approvals, c).kase.actions, d.blockers != [])
  {
    hide ExecutedAll, ExecutedOne, FinalStatus, Lawful, Startable, IsExecutable, VerifyOne, NewBlockers, Merged, Progress;
    DecidedIsLawful(approvals, c);
    var decided := AfterDecisions(approvals, c);
    ExecutedIsLawful(docs, c.run, decided.actions);
    var blocked := decided.blockers != [];
    var (d, written) := if blocked then (docs, decided.actions) else ExecutedAll(docs, c.run, decided.actions);
    var r := Continued(docs, approvals, c).kase.actions;
    forall i | 0 <= i < |c.actions| ensures Progress(c.actions[i], decided.actions[i], r[i], blocked) {
      AwaitingIsHeld(c.actions[i]);
      ActionProgress(d, c.actions[i], decided.actions[i], written[i], blocked);
    }
  }

  lemma {:induction false} WrittenKeyIs(run: RunId, actions: seq<ActionView>, k: Key)
    requires k in WrittenKeys(run, actions)
    ensures exists i :: 0 <= i < |actions| && WritesEntitlement(actions[i]) && k == Key(run, actions[i].id, actions[i].params)
  {
    var a := actions[0];
    if WritesEntitlement(a) && k == Key(run, a.id, a.params) {
      assert actions[0] == a;
    } else {
      WrittenKeyIs(run, actions[1..], k);
      var i :| 0 <= i < |actions[1..]| && WritesEntitlement(actions[1..][i]) &&
               k == Key(run, actions[1..][i].id, actions[1..][i].params);
      assert actions[i + 1] == actions[1..][i];
    }
  }

  /** The case as planned, up to states. */
  ghost predicate OfPlan(c: Case, s: Subject, inputs: Inputs) {
    && DistinctIds(c.actions) && AllLawful(c.actions)
    && (forall i :: 0 <= i < |c.actions| ==> Startable(c.actions[i]) && Fits(c.actions[i], s, inputs))
  }

  /** The records the run was planned from: `first` is the body then. */
  ghost predicate Recorded(first: Body, s: Subject, inputs: Inputs) {
    && first.Entitlements? && inputs.holdings == Held(first, s.id) && inputs.catalog == first.catalog
    && s.id != "" && "" !in inputs.catalog
  }

  /** What is not written yet has a key the ledger does not know. */
  ghost predicate KeysFresh(doc: Doc, c: Case) {
    forall i :: 0 <= i < |c.actions| && !ToGitHub(c.actions[i].params) && !IsDone(c.actions[i]) ==>
      Key(c.run, c.actions[i].id, c.actions[i].params) !in doc.ledger
  }

  /** Holdings are what the actions done so far make of the first ones; nobody else's changed. */
  ghost predicate HoldsExpected(first: Body, doc: Doc, c: Case, person: string) {
    && first.Entitlements? && doc.body.Entitlements? && doc.body.catalog == first.catalog && doc.faults == map[]
    && (forall p :: p != person ==> Held(doc.body, p) == Held(first, p))
    && (forall e :: Copies(doc.body, person, e) == Expected(Copies(first, person, e), c.actions, e))
  }

  /** A verified action has its effect; a failed one is a revoke of an entitlement that was held more than once. */
  ghost predicate OutcomesHold(first: Body, doc: Doc, actions: seq<ActionView>, person: string)
    requires first.Entitlements? && doc.body.Entitlements?
  {
    forall i :: 0 <= i < |actions| && IsDone(actions[i]) ==>
      if actions[i].state == Verified then (Copies(doc.body, person, EntOf(actions[i])) > 0) == (actions[i].params.kind == "grant")
      else actions[i].params.kind == "revoke" && Copies(first, person, EntOf(actions[i])) > 1
  }

  ghost predicate Accounted(first: Body, docs: Docs, c: Case, s: Subject, inputs: Inputs) {
    && Recorded(first, s, inputs) && OfPlan(c, s, inputs) && KeysFresh(docs.ent, c)
    && HoldsExpected(first, docs.ent, c, s.id) && OutcomesHold(first, docs.ent, c.actions, s.id)
  }

  lemma CleanPass(first: Body, docs: Docs, approvals: map<(RunId, ActionId), Approval>, c: Case, s: Subject, inputs: Inputs)
    requires Accounted(first, docs, c, s, inputs)
    ensures Clean(docs.ent, c.run, AfterDecisions(approvals, c).actions, s.id)
  {
    hide Merged, NewBlockers, Expected, OutcomesHold, Lawful, Continued;
    PassProgress(docs, approvals, c);
    var d := AfterDecisions(approvals, c);
    var r := Continued(docs, approvals, c).kase.actions;
    forall i | 0 <= i < |d.actions| && WritesEntitlement(d.actions[i])
      ensures Key(c.run, d.actions[i].id, d.actions[i].params) !in docs.ent.ledger
      ensures Fits(d.actions[i], s, inputs)
    {
      assert Progress(c.actions[i], d.actions[i], r[i], d.blockers != []);
    }
  }

  /** The case a pass leaves is still the plan's. */
  lemma PassKeepsPlan(docs: Docs, approvals: map<(RunId, ActionId), Approval>, c: Case, s: Subject, inputs: Inputs)
    requires OfPlan(c, s, inputs)
    ensures OfPlan(Continued(docs, approvals, c).kase, s, inputs)
  {
    hide Continued, Lawful, Startable;
    PassSettles(docs, approvals, c);
    var r := Continued(docs, approvals, c).kase;
    assert forall i :: 0 <= i < |r.actions| ==> r.actions[i].id == c.actions[i].id && r.actions[i].params == c.actions[i].params;
  }

  /** The copies of one entitlement after a pass that wrote x. */
  lemma CopiesAdvance(h: nat, c: seq<ActionView>, x: seq<ActionView>, r: seq<ActionView>, s: Subject, inputs: Inputs, e: string)
    requires AllProgress(c, x, r, false) && forall i :: 0 <= i < |c| ==> Fits(c[i], s, inputs)
    requires h == multiset(inputs.holdings)[e]
    ensures AllCopies(Expected(h, c, e), x, e) == Expected(h, r, e)
    ensures e !in inputs.holdings ==> Expected(h, r, e) == if DoneCount(r, "grant", e) > 0 then 1 else 0
    ensures e in inputs.holdings ==> Expected(h, r, e) == Less(h, DoneCount(r, "revoke", e)) <= Expected(h, c, e)
  {
    hide Expected, AllCopies;
    var kind, other := if e in inputs.holdings then "revoke" else "grant", if e in inputs.holdings then "grant" else "revoke";
    forall i | 0 <= i < |c| ensures Progress(c[i], x[i], r[i], false) && Fits(c[i], s, inputs) {
    }
    assert kind != other;
    NoneDone(c, other, e);
    NoneDone(r, other, e);
    OneKind(Expected(h, c, e), x, e, kind);
    DoneGrows(c, x, r, false, kind, e);
    ExpectedIs(h, c, e);
    ExpectedIs(h, r, e);
  }

  lemma ExpectedIs(h: nat, c: seq<ActionView>, e: string)
    ensures Expected(h, c, e) == if DoneCount(c, "grant", e) > 0 then 1 else Less(h, DoneCount(c, "revoke", e))
  {
  }

  /** A blocked pass changes no holdings and completes no action. */
  lemma BlockedPassKeeps(first: Body, docs: Docs, approvals: map<(RunId, ActionId), Approval>, c: Case, s: Subject, inputs: Inputs)
    requires Accounted(first, docs, c, s, inputs) && AfterDecisions(approvals, c).blockers != []
    ensures var r := Continued(docs, approvals, c); Accounted(first, r.docs, r.kase, s, inputs)
  {
    hide AfterDecisions, Continued, OfPlan, Copies, Held, Progress;
    var r := Continued(docs, approvals, c);
    var x := AfterDecisions(approvals, c).actions;
    BlockersStay(docs, approvals, c);
    assert r.docs == docs && r.kase.run == c.run by { BlockedDocs(docs, approvals, c); }
    PassKeepsPlan(docs, approvals, c, s, inputs);
    assert AllProgress(c.actions, x, r.kase.actions, true) by { PlanIsStartable(c, s, inputs); PassProgress(docs, approvals, c); }
    forall i | 0 <= i < |c.actions|
      ensures IsDone(r.kase.actions[i]) <==> IsDone(c.actions[i])
      ensures IsDone(c.actions[i]) ==> r.kase.actions[i] == c.actions[i]
      ensures r.kase.actions[i].params == c.actions[i].params && r.kase.actions[i].id == c.actions[i].id
    {
      ProgressMeans(c.actions[i], x[i], r.kase.actions[i], true);
    }
    forall e ensures Expected(Copies(first, s.id, e), r.kase.actions, e) == Expected(Copies(first, s.id, e), c.actions, e) {
      DoneGrows(c.actions, x, r.kase.actions, true, "grant", e);
      DoneGrows(c.actions, x, r.kase.actions, true, "revoke", e);
    }
  }

  lemma BlockedDocs(docs: Docs, approvals: map<(RunId, ActionId), Approval>, c: Case)
    requires AfterDecisions(approvals, c).blockers != []
    ensures Continued(docs, approvals, c).docs == docs && Continued(docs, approvals, c).kase.run == c.run
  {
    hide VerifiedAll, ExecutedAll, Merged, NewBlockers;
  }

  lemma PlanIsStartable(c: Case, s: Subject, inputs: Inputs)
    requires OfPlan(c, s, inputs)
    ensures DistinctIds(c.actions) && AllLawful(c.actions)
    ensures forall i :: 0 <= i < |c.actions| ==> Startable(c.actions[i]) && Fits(c.actions[i], s, inputs)
  {
  }

  lemma ProgressMeans(a: ActionView, x: ActionView, r: ActionView, blocked: bool)
    requires Progress(a, x, r, blocked)
    ensures x.params == a.params && r.params == a.params && x.id == a.id && r.id == a.id
    ensures WritesEntitlement(x) ==> !IsDone(a)
    ensures IsDone(r) <==> IsDone(a) || (!blocked && WritesEntitlement(x))
    ensures IsDone(a) ==> r == a
  {
  }

  /** What an unblocked pass makes of the books. */
  lemma OpenPassKeeps(first: Body, docs: Docs, approvals: map<(RunId, ActionId), Approval>, c: Case, s: Subject, inputs: Inputs)
    requires Accounted(first, docs, c, s, inputs) && AfterDecisions(approvals, c).blockers == []
    ensures var r := Continued(docs, approvals, c); Accounted(first, r.docs, r.kase, s, inputs)
  {
    hide AfterDecisions, Continued, OfPlan, Held, Progress, Expected, AllCopies, DoneCount, Lawful, Startable, Fits, IsDone,
         WritesEntitlement, WrittenKeys, Clean, Copies, OutcomesHold;
    var r, x := Continued(docs, approvals, c), AfterDecisions(approvals, c).actions;
    PlanIsStartable(c, s, inputs);
    CleanPass(first, docs, approvals, c, s, inputs);
    PassKeepsPlan(docs, approvals, c, s, inputs);
    PassKeepsRun(docs, approvals, c);
    PassHoldings(docs, approvals, c, s.id);
    assert AllProgress(c.actions, x, r.kase.actions, false) by { PassProgress(docs, approvals, c); }
    forall e ensures Copies(r.docs.ent.body, s.id, e) == Expected(Copies(first, s.id, e), r.kase.actions, e) {
      CopiesOf(first, s, inputs, e);
      CopiesAdvance(Copies(first, s.id, e), c.actions, x, r.kase.actions, s, inputs, e);
    }
    assert KeysFresh(r.docs.ent, r.kase) by { KeysStayFresh(docs.ent, r.docs.ent, c, x, r.kase); }
    OutcomesAdvance(first, docs.ent, r.docs.ent, c, x, r.kase, s, inputs);
  }

  lemma CopiesOf(first: Body, s: Subject, inputs: Inputs, e: string)
    requires Recorded(first, s, inputs)
    ensures Copies(first, s.id, e) == multiset(inputs.holdings)[e]
  {
  }

  lemma KeysStayFresh(before: Doc, after: Doc, c: Case, x: seq<ActionView>, r: Case)
    requires KeysFresh(before, c) && AllProgress(c.actions, x, r.actions, false) && r.run == c.run && DistinctIds(c.actions)
    requires after.ledger == before.ledger + WrittenKeys(c.run, x)
    ensures KeysFresh(after, r)
  {
    hide Progress;
    forall i | 0 <= i < |c.actions| ensures Progress(c.actions[i], x[i], r.actions[i], false) {
    }
    forall i | 0 <= i < |r.actions| && !ToGitHub(r.actions[i].params) && !IsDone(r.actions[i])
      ensures Key(r.run, r.actions[i].id, r.actions[i].params) !in after.ledger
    {
      var k := Key(r.run, r.actions[i].id, r.actions[i].params);
      ProgressMeans(c.actions[i], x[i], r.actions[i], false);
      if k in WrittenKeys(c.run, x) {
        WrittenKeyIs(c.run, x, k);
        var j :| 0 <= j < |x| && WritesEntitlement(x[j]) && k == Key(c.run, x[j].id, x[j].params);
        ProgressMeans(c.actions[j], x[j], r.actions[j], false);
      }
    }
  }

  lemma OutcomesAdvance(first: Body, before: Doc, after: Doc, c: Case, x: seq<ActionView>, r: Case, s: Subject, inputs: Inputs)
    requires Recorded(first, s, inputs) && OfPlan(c, s, inputs) && AllProgress(c.actions, x, r.actions, false)
    requires HoldsExpected(first, before, c, s.id) && HoldsExpected(first, after, r, s.id)
    requires OutcomesHold(first, before, c.actions, s.id)
    requires forall i :: 0 <= i < |x| && WritesEntitlement(x[i]) ==>
               r.actions[i].state ==
               if (Copies(after.body, s.id, EntOf(x[i])) > 0) == (x[i].params.kind == "grant") then Verified else Failed
    ensures OutcomesHold(first, after, r.actions, s.id)
  {
    hide Progress, Expected, Held, Lawful, Startable, WritesEntitlement, DoneCount;
    forall i | 0 <= i < |r.actions| && IsDone(r.actions[i])
      ensures if r.actions[i].state == Verified
              then (Copies(after.body, s.id, EntOf(r.actions[i])) > 0) == (r.actions[i].params.kind == "grant")
              else r.actions[i].params.kind == "revoke" && Copies(first, s.id, EntOf(r.actions[i])) > 1
    {
      var e := EntOf(r.actions[i]);
      var h := Copies(first, s.id, e);
      assert Progress(c.actions[i], x[i], r.actions[i], false);
      ProgressMeans(c.actions[i], x[i], r.actions[i], false);
      CopiesOf(first, s, inputs, e);
      CopiesAdvance(h, c.actions, x, r.actions, s, inputs, e);
      DoneIsCounted(r.actions, i);
      assert Fits(c.actions[i], s, inputs);
    }
  }

  lemma {:induction false} PassesKeep(first: Body, docs: Docs, c: Case, approvals: seq<map<(RunId, ActionId), Approval>>,
                                      s: Subject, inputs: Inputs)
    requires Accounted(first, docs, c, s, inputs)
    ensures var (d, r) := CarriedOn(docs, c, approvals); Accounted(first, d, r, s, inputs)
    decreases |approvals|
  {
    hide Accounted, Continued, AfterDecisions;
    if approvals != [] {
      if AfterDecisions(approvals[0], c).blockers == [] {
        OpenPassKeeps(first, docs, approvals[0], c, s, inputs);
      } else {
        BlockedPassKeeps(first, docs, approvals[0], c, s, inputs);
      }
      var r := Continued(docs, approvals[0], c);
      PassesKeep(first, r.docs, r.kase, approvals[1..], s, inputs);
    }
  }

  /** The case a run's first pass plans, with the blockers Compile found. */
  function FirstCase(run: RunId, intent: Intent, everything: bool, s: Subject, inputs: Inputs, blockers: seq<string>,
                     decide: Params -> Verdict): Case
    requires Iterates(inputs) && Candidates(intent, everything, s, inputs).Some? && TransferRevokes(s, inputs).Some?
  {
    Case(run, PlanOf(Candidates(intent, everything, s, inputs).value, TransferRevokes(s, inputs).value, decide), blockers)
  }

  /** A run may start: its records were read from this document, no fault is injected, and none of its keys was used. */
  ghost predicate Starts(doc: Doc, run: RunId, intent: Intent, everything: bool, s: Subject, inputs: Inputs,
                         decide: Params -> Verdict) {
    && Recorded(doc.body, s, inputs) && doc.faults == map[] && (forall k :: k in doc.ledger ==> k.run != run)
    && Iterates(inputs) && Decides(decide)
    && Candidates(intent, everything, s, inputs).Some? && TransferRevokes(s, inputs).Some?
  }

  lemma {:induction false} NothingDone(actions: seq<ActionView>, kind: string, e: string)
    requires forall i :: 0 <= i < |actions| ==> !IsDone(actions[i])
    ensures DoneCount(actions, kind, e) == 0
  {
    if actions != [] {
      assert forall i :: 0 <= i < |actions[1..]| ==> actions[1..][i] == actions[i + 1];
      NothingDone(actions[1..], kind, e);
    }
  }

  lemma PlanIsAccounted(docs: Docs, run: RunId, intent: Intent, everything: bool, s: Subject, inputs: Inputs,
                        blockers: seq<string>, decide: Params -> Verdict)
    requires Starts(docs.ent, run, intent, everything, s, inputs, decide)
    ensures Accounted(docs.ent.body, docs, FirstCase(run, intent, everything, s, inputs, blockers, decide), s, inputs)
  {
    hide Candidates, TransferRevokes, PlanOf, Fits, Held, DistinctIds, Copies, DoneCount;
    var c := FirstCase(run, intent, everything, s, inputs, blockers, decide);
    PlanFits(intent, everything, s, inputs, decide);
    forall i | 0 <= i < |c.actions|
      ensures Lawful(c.actions[i]) && c.actions[i].verdict.Some? && Startable(c.actions[i]) && !IsDone(c.actions[i])
      ensures Fits(c.actions[i], s, inputs)
    {
      var a := c.actions[i];
      assert a in c.actions && WellFormed(decide(a.params));
    }
    forall e ensures Expected(Copies(docs.ent.body, s.id, e), c.actions, e) == Copies(docs.ent.body, s.id, e) {
      NothingDone(c.actions, "grant", e);
      NothingDone(c.actions, "revoke", e);
    }
  }

  /** All passes of a run, from its records as compiled: whatever the person held, however often it repeats, whatever the
      plan asks for, whichever decisions arrive when, and with passes that are blocked in between. Each entitlement ends
      with one copy if a grant of it was written, and otherwise with what was held less one copy per written revoke; a
      verified action has its effect, and only a revoke of what was held more than once can fail; nobody else's holdings
      change. */
  lemma RunHoldings(docs: Docs, run: RunId, intent: Intent, everything: bool, s: Subject, inputs: Inputs,
                    blockers: seq<string>, decide: Params -> Verdict, approvals: seq<map<(RunId, ActionId), Approval>>)
    requires Starts(docs.ent, run, intent, everything, s, inputs, decide)
    ensures var (d, c) := CarriedOn(docs, FirstCase(run, intent, everything, s, inputs, blockers, decide), approvals);
            && d.ent.body.Entitlements?
            && (forall e :: Copies(d.ent.body, s.id, e) ==
                  if DoneCount(c.actions, "grant", e) > 0 then 1
                  else Less(multiset(inputs.holdings)[e], DoneCount(c.actions, "revoke", e)))
            && (forall p :: p != s.id ==> Held(d.ent.body, p) == Held(docs.ent.body, p))
            && (forall i :: 0 <= i < |c.actions| && IsDone(c.actions[i]) ==>
                  var e := EntOf(c.actions[i]);
                  if c.actions[i].state == Verified then (Copies(d.ent.body, s.id, e) > 0) == (c.actions[i].params.kind == "grant")
                  else c.actions[i].params.kind == "revoke" && multiset(inputs.holdings)[e] > 1)
  {
    hide FirstCase, OfPlan, KeysFresh, Candidates, TransferRevokes;
    var first := FirstCase(run, intent, everything, s, inputs, blockers, decide);
    PlanIsAccounted(docs, run, intent, everything, s, inputs, blockers, decide);
    PassesKeep(docs.ent.body, docs, first, approvals, s, inputs);
  }

  /** The actions of one kind that were written. */
  function DoneSet(actions: seq<ActionView>, kind: string): set<string> {
    set i | 0 <= i < |actions| && IsDone(actions[i]) && actions[i].params.kind == kind :: EntOf(actions[i])
  }

  lemma {:induction false} CountedIsDone(actions: seq<ActionView>, kind: string, e: string)
    ensures DoneCount(actions, kind, e) > 0 <==> e in DoneSet(actions, kind)
  {
    if actions != [] {
      var tail := actions[1..];
      CountedIsDone(tail, kind, e);
      if e in DoneSet(tail, kind) {
        var i :| 0 <= i < |tail| && IsDone(tail[i]) && tail[i].params.kind == kind && EntOf(tail[i]) == e;
        assert actions[i + 1] == tail[i];
      }
      if e in DoneSet(actions, kind) {
        var i :| 0 <= i < |actions| && IsDone(actions[i]) && actions[i].params.kind == kind && EntOf(actions[i]) == e;
        assert i > 0 ==> tail[i - 1] == actions[i];
      }
    }
  }

  /** For holdings without repeats: what was held, plus the written grants, minus the written revokes, and every written
      action is verified. */
  lemma SetHoldings(docs: Docs, run: RunId, intent: Intent, everything: bool, s: Subject, inputs: Inputs,
                    blockers: seq<string>, decide: Params -> Verdict, approvals: seq<map<(RunId, ActionId), Approval>>)
    requires Starts(docs.ent, run, intent, everything, s, inputs, decide) && NoDuplicates(inputs.holdings)
    ensures var (d, c) := CarriedOn(docs, FirstCase(run, intent, everything, s, inputs, blockers, decide), approvals);
            && d.ent.body.Entitlements?
            && (forall e :: e in Held(d.ent.body, s.id) <==>
                  e in DoneSet(c.actions, "grant") || (e in inputs.holdings && e !in DoneSet(c.actions, "revoke")))
            && (forall i :: 0 <= i < |c.actions| && IsDone(c.actions[i]) ==> c.actions[i].state == Verified)
  {
    hide FirstCase, Held, DoneCount, IsDone, DoneSet, Candidates, TransferRevokes;
    RunHoldings(docs, run, intent, everything, s, inputs, blockers, decide, approvals);
    var (d, c) := CarriedOn(docs, FirstCase(run, intent, everything, s, inputs, blockers, decide), approvals);
    forall e
      ensures e in Held(d.ent.body, s.id) <==>
              e in DoneSet(c.actions, "grant") || (e in inputs.holdings && e !in DoneSet(c.actions, "revoke"))
      ensures multiset(inputs.holdings)[e] <= 1
    {
      OccursOnce(inputs.holdings, e);
      CountedIsDone(c.actions, "grant", e);
      CountedIsDone(c.actions, "revoke", e);
      assert e in Held(d.ent.body, s.id) <==> Copies(d.ent.body, s.id, e) > 0;
    }
  }
}
