/** One uninterrupted pass from Approve to Finalize, as a function of what it starts from; and what it does to the
    holdings of the people it is about. */
module PassSpec {
  import opened Models
  import opened Connector
  import opened Execute
  import opened FinalizeStage
  import opened Protocol
  import opened GovernPlan

  function ExecutedOne(docs: Docs, run: RunId, a: ActionView): (Docs, ActionView) {
    if !IsExecutable(a) then (docs, a)
    else
      var (d, out) := ExecuteFrom(DocOf(docs, a.params), Key(run, a.id, a.params), 1, MAX_ATTEMPTS);
      (WithDoc(docs, a.params, d), Move(a, out.state))
  }

  /** Every executable action through its connector, in plan order. */
  function ExecutedAll(docs: Docs, run: RunId, actions: seq<ActionView>): (r: (Docs, seq<ActionView>))
    ensures |r.1| == |actions|
    decreases |actions|
  {
    if actions == [] then (docs, [])
    else
      var (d, a) := ExecutedOne(docs, run, actions[0]);
      var (rest, states) := ExecutedAll(d, run, actions[1..]);
      (rest, [a] + states)
  }

  /** Every written action read back. */
  function VerifiedAll(docs: Docs, actions: seq<ActionView>): (r: seq<ActionView>)
    ensures |r| == |actions|
    ensures forall i :: 0 <= i < |r| ==> r[i] == VerifyOne(docs, actions[i])
  {
    if actions == [] then [] else [VerifyOne(docs, actions[0])] + VerifiedAll(docs, actions[1..])
  }

  datatype PassResult = PassResult(docs: Docs, kase: Case, status: RunStatus)

  /** Approve, execute unless a blocker is open, verify, finalize. */
  function Continued(docs: Docs, approvals: map<(RunId, ActionId), Approval>, c: Case): PassResult {
    var decided := AfterDecisions(approvals, c);
    var (d, written) := if decided.blockers == [] then ExecutedAll(docs, c.run, decided.actions) else (docs, decided.actions);
    var checked := VerifiedAll(d, written);
    PassResult(d, decided.(actions := checked), FinalStatus(checked, decided.blockers))
  }

  /** Each system for itself: what is meant for GitHub is written to and read from GitHub alone, everything else the
      entitlements system alone; what is not executable is not written; and what was written is verified exactly when the
      system it was written to reads back as intended, and failed otherwise. */
  lemma EachSystemItsOwn(docs: Docs, run: RunId, a: ActionView)
    ensures var (d, r) := ExecutedOne(docs, run, a);
            && (a.params.target.system == "github" ==> d.ent == docs.ent)
            && (a.params.target.system != "github" ==> d.gh == docs.gh)
            && (!((a.verdict == Some(ALLOW) && a.state == Planned) || (a.verdict == Some(HOLD) && a.state == Approved)) ==>
                  d == docs && r == a)
    ensures Lawful(a) && (a.state == Executed || a.state == Unknown) && a.verdict.Some? ==>
              var doc := if a.params.target.system == "github" then docs.gh else docs.ent;
              VerifyOne(docs, a) == a.(state := if ReadBack(doc.body, a.params) == Seen(true) then Verified else Failed)
    ensures a.state != Executed && a.state != Unknown ==> VerifyOne(docs, a) == a
  {
    hide ExecuteFrom, ReadBack;
  }

  /** The ids a pass writes, and those it reads back. */
  function WrittenIds(actions: seq<ActionView>): set<ActionId> {
    set i | 0 <= i < |actions| && IsExecutable(actions[i]) :: actions[i].id
  }

  function CheckedIds(actions: seq<ActionView>): set<ActionId> {
    set i | 0 <= i < |actions| && Verifiable(actions[i].state) :: actions[i].id
  }

  /** Awaiting actions with a decision that was bound to other parameters. */
  predicate IsVoid(approvals: map<(RunId, ActionId), Approval>, run: RunId, a: ActionView) {
    a.state == Awaiting && (run, a.id) in approvals && approvals[(run, a.id)].params != a.params
  }

  function VoidIds(approvals: map<(RunId, ActionId), Approval>, run: RunId, actions: seq<ActionView>): set<ActionId> {
    set i | 0 <= i < |actions| && IsVoid(approvals, run, actions[i]) :: actions[i].id
  }

  lemma IdsSplit(actions: seq<ActionView>)
    requires actions != []
    ensures WrittenIds(actions) == (if IsExecutable(actions[0]) then {actions[0].id} else {}) + WrittenIds(actions[1..])
    ensures CheckedIds(actions) == (if Verifiable(actions[0].state) then {actions[0].id} else {}) + CheckedIds(actions[1..])
  {
    SplitIds(actions, (a: ActionView) => IsExecutable(a));
    SplitIds(actions, (a: ActionView) => Verifiable(a.state));
  }

  lemma DecidedSplit(approvals: map<(RunId, ActionId), Approval>, run: RunId, actions: seq<ActionView>)
    requires actions != []
    ensures DecidedIds(approvals, Case(run, actions, [])) ==
            (if Counts(approvals, run, actions[0]) then {actions[0].id} else {})
            + DecidedIds(approvals, Case(run, actions[1..], []))
    ensures VoidIds(approvals, run, actions) ==
            (if IsVoid(approvals, run, actions[0]) then {actions[0].id} else {}) + VoidIds(approvals, run, actions[1..])
  {
    SplitIds(actions, (a: ActionView) => Counts(approvals, run, a));
    SplitIds(actions, (a: ActionView) => IsVoid(approvals, run, a));
  }

  lemma SplitIds(actions: seq<ActionView>, p: ActionView -> bool)
    requires actions != []
    ensures (set i | 0 <= i < |actions| && p(actions[i]) :: actions[i].id) ==
            (if p(actions[0]) then {actions[0].id} else {})
            + set i | 0 <= i < |actions[1..]| && p(actions[1..][i]) :: actions[1..][i].id
  {
    var tail := actions[1..];
    var all := set i | 0 <= i < |actions| && p(actions[i]) :: actions[i].id;
    var rest := set i | 0 <= i < |tail| && p(tail[i]) :: tail[i].id;
    forall x | x in all ensures x in (if p(actions[0]) then {actions[0].id} else {}) + rest {
      var i :| 0 <= i < |actions| && p(actions[i]) && actions[i].id == x;
      assert i > 0 ==> tail[i - 1] == actions[i];
    }
    forall x | x in rest ensures x in all {
      var i :| 0 <= i < |tail| && p(tail[i]) && tail[i].id == x;
      assert actions[i + 1] == tail[i];
    }
  }

  // --- nobody is left unasked ---------------------------------------------------------------------------------

  lemma {:induction false} AddNewContains(seen: seq<string>, more: seq<string>)
    requires NoDuplicates(seen)
    ensures NoDuplicates(AddNew(seen, more))
    ensures forall x :: x in AddNew(seen, more) <==> x in seen || x in more
    decreases |more|
  {
    if more != [] {
      AddNewContains(if more[0] in seen then seen else seen + [more[0]], more[1..]);
      assert forall x :: x in more <==> x == more[0] || x in more[1..];
    }
  }

  /** Some action waits for a person nobody could name, and x says so. */
  ghost predicate Unnamed(actions: seq<ActionView>, x: string) {
    exists i :: 0 <= i < |actions| && actions[i].state == Awaiting && Unresolved(actions[i].approver) &&
                NoApprover(actions[i]) == x
  }

  /** Who can be asked: an approver is nameable unless missing or a mere role. What is said otherwise, and what is asked. */
  lemma WhoIsAsked(run: RunId, a: ActionView)
    ensures Unresolved(a.approver) <==> a.approver.None? || (|a.approver.value| >= 5 && a.approver.value[..5] == "role:")
    ensures Waits(a) <==> a.state == Awaiting && a.approver.Some? && !(|a.approver.value| >= 5 && a.approver.value[..5] == "role:")
    ensures a.approver.Some? ==> AskFor(run, a) == Dispatch(run, a.id, a.approver.value, a.params)
    ensures NoApprover(a) == "No named approver for " + a.id + " (" + (if a.approver.None? then "None" else a.approver.value) +
                             "); resolve the role before it can proceed."
  {
  }

  /** The job asks for some action that waits for a named person, the first one with its id. */
  ghost predicate Asks(actions: seq<ActionView>, run: RunId, j: JobRow) {
    exists i :: 0 <= i < |actions| && Waits(actions[i]) && j == AskFor(run, actions[i]) &&
                forall h :: 0 <= h < i && Waits(actions[h]) ==> actions[h].id != actions[i].id
  }

  lemma UnnamedSplit(actions: seq<ActionView>, x: string)
    requires actions != []
    ensures var a := actions[0];
            Unnamed(actions, x) <==> (a.state == Awaiting && Unresolved(a.approver) && NoApprover(a) == x) || Unnamed(actions[1..], x)
  {
    hide Unresolved, NoApprover;
    var tail := actions[1..];
    assert forall i :: 0 <= i < |tail| ==> tail[i] == actions[i + 1];
    if i :| 0 <= i < |actions| && actions[i].state == Awaiting && Unresolved(actions[i].approver) &&
            NoApprover(actions[i]) == x {
      assert i > 0 ==> tail[i - 1] == actions[i];
    }
  }

  lemma AsksFirstOrLater(actions: seq<ActionView>, run: RunId, j: JobRow)
    requires actions != [] && Asks(actions, run, j)
    ensures var a := actions[0];
            (Waits(a) && j == AskFor(run, a)) || (Asks(actions[1..], run, j) && !(Waits(a) && SameKey(j, AskFor(run, a))))
  {
    hide Waits;
    var tail := actions[1..];
    var i :| 0 <= i < |actions| && Waits(actions[i]) && j == AskFor(run, actions[i]) &&
             forall h :: 0 <= h < i && Waits(actions[h]) ==> actions[h].id != actions[i].id;
    if i > 0 {
      assert tail[i - 1] == actions[i];
      assert forall h :: 0 <= h < i - 1 ==> tail[h] == actions[h + 1];
    }
  }

  lemma AsksSplit(actions: seq<ActionView>, run: RunId, j: JobRow)
    requires actions != []
    ensures var a := actions[0];
            Asks(actions, run, j) <==>
              (Waits(a) && j == AskFor(run, a)) ||
              (Asks(actions[1..], run, j) && !(Waits(a) && SameKey(j, AskFor(run, a))))
  {
    hide Waits;
    if Asks(actions, run, j) {
      AsksFirstOrLater(actions, run, j);
    }
    var a, tail := actions[0], actions[1..];
    if Asks(tail, run, j) && !(Waits(a) && SameKey(j, AskFor(run, a))) {
      var i :| 0 <= i < |tail| && Waits(tail[i]) && j == AskFor(run, tail[i]) &&
               forall h :: 0 <= h < i && Waits(tail[h]) ==> tail[h].id != tail[i].id;
      assert actions[i + 1] == tail[i];
      assert forall h :: 0 < h < i + 1 ==> actions[h] == tail[h - 1];
    }
  }

  lemma {:induction false} BlockersAre(actions: seq<ActionView>, x: string)
    ensures x in NewBlockers(actions) <==> Unnamed(actions, x)
    decreases |actions|
  {
    hide Unnamed, Unresolved, NoApprover;
    if actions != [] {
      UnnamedSplit(actions, x);
      BlockersAre(actions[1..], x);
    } else {
      NobodyWaits(0, x, Receipt(0, Done, 0, 0));
    }
  }

  lemma NobodyWaits(run: RunId, x: string, j: JobRow)
    ensures !Unnamed([], x) && !Asks([], run, j)
  {
  }

  lemma EnqueuedIs(jobs: seq<JobRow>, k: JobRow, j: JobRow)
    ensures var next := Enqueue(jobs, k);
            && (j in next <==> j in jobs || (j == k && !Taken(jobs, k)))
            && (Taken(next, j) <==> Taken(jobs, j) || SameKey(k, j))
            && (j in jobs && SameKey(j, k) ==> Taken(jobs, k))
            && (SameKey(j, k) ==> (Taken(jobs, j) <==> Taken(jobs, k)))
  {
  }

  lemma {:induction false} DispatchedAre(jobs: seq<JobRow>, run: RunId, actions: seq<ActionView>, j: JobRow)
    ensures j in Dispatched(jobs, run, actions) <==> j in jobs || (Asks(actions, run, j) && !Taken(jobs, j))
    ensures forall i :: 0 <= i < |actions| && Waits(actions[i]) ==> Taken(Dispatched(jobs, run, actions), AskFor(run, actions[i]))
    ensures Taken(jobs, j) ==> Taken(Dispatched(jobs, run, actions), j)
    decreases |actions|
  {
    hide Asks, Waits, Enqueue, Taken, SameKey;
    if actions != [] {
      var a, tail := actions[0], actions[1..];
      AsksSplit(actions, run, j);
      var next := if Waits(a) then Enqueue(jobs, AskFor(run, a)) else jobs;
      EnqueuedIs(jobs, AskFor(run, a), j);
      EnqueuedIs(jobs, AskFor(run, a), AskFor(run, a));
      KeysAgree(AskFor(run, a), j);
      DispatchedAre(next, run, tail, j);
      DispatchedAre(next, run, tail, AskFor(run, a));
      assert forall i :: 1 <= i < |actions| ==> actions[i] == tail[i - 1];
    } else {
      NobodyWaits(run, "", j);
    }
  }

  lemma KeysAgree(j: JobRow, k: JobRow)
    ensures SameKey(j, j) && (SameKey(j, k) <==> SameKey(k, j))
  {
  }

  /** After the decisions every action that waits for nobody nameable blocks the run, and nothing else newly does; open
      blockers stay open, each of them once. Every action that waits for a named person has a job under its key. What is
      enqueued is exactly the jobs that ask for such actions under keys that no job had: a job that stands stays, whomever
      it asks. */
  lemma HoldsReachSomeone(jobs: seq<JobRow>, approvals: map<(RunId, ActionId), Approval>, c: Case)
    ensures var r := AfterDecisions(approvals, c);
            var after := Dispatched(jobs, c.run, r.actions);
            && NoDuplicates(r.blockers)
            && (forall x :: x in r.blockers <==> (x in c.blockers || Unnamed(r.actions, x)))
            && (forall i :: 0 <= i < |r.actions| && Waits(r.actions[i]) ==> Taken(after, AskFor(c.run, r.actions[i])))
            && (forall j :: j in after <==> (j in jobs || (Asks(r.actions, c.run, j) && !Taken(jobs, j))))
  {
    hide NewBlockers, Dispatched, AddNew, WithDecisions, Unnamed, Asks, Taken;
    var r := AfterDecisions(approvals, c);
    AddNewContains([], c.blockers + NewBlockers(r.actions));
    forall x ensures x in NewBlockers(r.actions) <==> Unnamed(r.actions, x) { BlockersAre(r.actions, x); }
    forall j ensures j in Dispatched(jobs, c.run, r.actions) <==> (j in jobs || (Asks(r.actions, c.run, j) && !Taken(jobs, j))) {
      DispatchedAre(jobs, c.run, r.actions, j);
    }
    DispatchedAre(jobs, c.run, r.actions, Receipt(0, Done, 0, 0));
  }

  /** An action that waits for a named person is asked about, for its own parameters, exactly when its key was free or the job
      that stands under it names that person and those parameters. */
  lemma AskedExactly(jobs: seq<JobRow>, run: RunId, actions: seq<ActionView>, i: nat)
    requires i < |actions| && Waits(actions[i]) && DistinctIds(actions)
    ensures AskFor(run, actions[i]) in Dispatched(jobs, run, actions) <==>
            !Taken(jobs, AskFor(run, actions[i])) || AskFor(run, actions[i]) in jobs
  {
    hide Taken, Waits;
    DispatchedAre(jobs, run, actions, AskFor(run, actions[i]));
    assert Asks(actions, run, AskFor(run, actions[i]));
  }

  // --- every action ends settled --------------------------------------------------------------------------------

  ghost predicate AllLawful(actions: seq<ActionView>) {
    forall i :: 0 <= i < |actions| ==> Lawful(actions[i]) && actions[i].verdict.Some?
  }

  predicate Settled(s: ActionState) { s in {Awaiting, Refused, Verified, Failed} }

  /** A case at the start of a pass: freshly planned, or as an earlier blocker-free pass left it. */
  predicate Startable(a: ActionView) { Settled(a.state) || IsExecutable(a) }

  lemma {:induction false} ExecutedIsLawful(docs: Docs, run: RunId, actions: seq<ActionView>)
    requires AllLawful(actions)
    ensures var (d, r) := ExecutedAll(docs, run, actions);
            && AllLawful(r)
            && forall i :: 0 <= i < |r| ==>
                 && r[i] == actions[i].(state := r[i].state)
                 && (IsExecutable(actions[i]) ==> r[i].state in {Executed, Failed, Unknown})
                 && (!IsExecutable(actions[i]) ==> r[i] == actions[i])
    decreases |actions|
  {
    if actions != [] {
      var (d, a) := ExecutedOne(docs, run, actions[0]);
      ExecutedIsLawful(d, run, actions[1..]);
      if IsExecutable(actions[0]) {
        OutcomeIsAMove(DocOf(docs, actions[0].params), Key(run, actions[0].id, actions[0].params), 1, MAX_ATTEMPTS);
      }
    }
  }

  lemma {:induction false} OutcomeIsAMove(doc: Doc, key: Key, attempt: nat, maxAttempts: nat)
    requires 1 <= attempt <= maxAttempts
    ensures ExecuteFrom(doc, key, attempt, maxAttempts).1.state in {Executed, Failed, Unknown}
    decreases maxAttempts - attempt
  {
    hide Write, ReadBack;
    var (d, out) := Write(doc, key);
    if attempt < maxAttempts {
      OutcomeIsAMove(d, key, attempt + 1, maxAttempts);
    }
  }

  lemma DecidedIsLawful(approvals: map<(RunId, ActionId), Approval>, c: Case)
    requires AllLawful(c.actions)
    ensures AllLawful(AfterDecisions(approvals, c).actions)
    ensures !RaisesOnDecision(approvals, c)
  {
    var r := AfterDecisions(approvals, c).actions;
    forall i | 0 <= i < |r|
      ensures Lawful(r[i]) && r[i].verdict.Some?
      ensures Counts(approvals, c.run, c.actions[i]) ==> CanMove(c.actions[i], DecidedState(approvals, c.run, c.actions[i]))
    {
      assert Lawful(c.actions[i]);
    }
  }

  /** One action through a pass: decided (b), written unless blocked (x), read back. */
  lemma ActionSettles(docs: Docs, a: ActionView, b: ActionView, x: ActionView, blocked: bool)
    requires Lawful(a) && a.verdict.Some? && Startable(a)
    requires b == a || (a.state == Awaiting && a.verdict == Some(HOLD) && b == a.(state := b.state) &&
                        b.state in {Approved, Refused})
    requires x == b.(state := x.state)
    requires if !blocked && IsExecutable(b) then x.state in {Executed, Failed, Unknown} else x == b
    ensures var r := VerifyOne(docs, x);
            && r == a.(state := r.state) && Lawful(r)
            && (!blocked ==> Settled(r.state)) && Startable(r)
            && (a.state in {Refused, Verified, Failed} ==> r == a)
  {
  }

  /** A blocker-free pass leaves every action awaiting, refused, verified or failed; and the run is done exactly when no
      blocker is open and every action is verified. Identity and verdicts never change. */
  lemma PassSettles(docs: Docs, approvals: map<(RunId, ActionId), Approval>, c: Case)
    requires AllLawful(c.actions) && forall i :: 0 <= i < |c.actions| ==> Startable(c.actions[i])
    ensures var r := Continued(docs, approvals, c);
            && |r.kase.actions| == |c.actions|
            && AllLawful(r.kase.actions)
            && (forall i :: 0 <= i < |c.actions| ==> r.kase.actions[i] == c.actions[i].(state := r.kase.actions[i].state))
            && (r.kase.blockers == [] ==> forall i :: 0 <= i < |c.actions| ==> Settled(r.kase.actions[i].state))
            && (forall i :: 0 <= i < |c.actions| ==> Startable(r.kase.actions[i]))
            && (forall i :: 0 <= i < |c.actions| && c.actions[i].state in {Refused, Verified, Failed} ==>
                  r.kase.actions[i] == c.actions[i])
            && (r.kase.blockers != [] ==> r.docs == docs)
            && (r.status == Done <==> r.kase.blockers == [] && forall i :: 0 <= i < |c.actions| ==> r.kase.actions[i].state == Verified)
            && r.status in RunTransitions(Running)
  {
    hide ExecutedAll, ExecutedOne, FinalStatus, Lawful, Startable, Settled, IsExecutable, VerifyOne, NewBlockers, Merged;
    DecidedIsLawful(approvals, c);
    var decided := AfterDecisions(approvals, c);
    ExecutedIsLawful(docs, c.run, decided.actions);
    var blocked := decided.blockers != [];
    var (d, written) := if blocked then (docs, decided.actions) else ExecutedAll(docs, c.run, decided.actions);
    var r := Continued(docs, approvals, c);
    forall i | 0 <= i < |c.actions|
      ensures Lawful(r.kase.actions[i]) && r.kase.actions[i] == c.actions[i].(state := r.kase.actions[i].state)
      ensures (!blocked ==> Settled(r.kase.actions[i].state)) && Startable(r.kase.actions[i])
      ensures c.actions[i].state in {Refused, Verified, Failed} ==> r.kase.actions[i] == c.actions[i]
    {
      AwaitingIsHeld(c.actions[i]);
      ActionSettles(d, c.actions[i], decided.actions[i], written[i], blocked);
    }
    FinalStatusIsEarned(r.kase.actions, r.kase.blockers);
  }

  /** A decision that counts takes effect in the next pass: a refusal is final, an approval is carried out and read back,
      or waits, approved, while a blocker is open. */
  lemma DecisionTakesEffect(docs: Docs, approvals: map<(RunId, ActionId), Approval>, c: Case, i: nat)
    requires AllLawful(c.actions) && i < |c.actions| && Counts(approvals, c.run, c.actions[i])
    ensures var r := Continued(docs, approvals, c);
            var state := r.kase.actions[i].state;
            if approvals[(c.run, c.actions[i].id)].decision == Decision.Refuse then state == Refused
            else if r.kase.blockers != [] then state == Approved
            else state in {Verified, Failed}
  {
    hide ExecutedAll, ExecutedOne, FinalStatus, NewBlockers, Merged, ReadBack, VerifyOne, IsExecutable, Lawful;
    DecidedIsLawful(approvals, c);
    var decided := AfterDecisions(approvals, c);
    var d := decided.actions[i];
    ExecutedIsLawful(docs, c.run, decided.actions);
    assert Lawful(c.actions[i]) && c.actions[i].verdict.Some?;
    AwaitingIsHeld(c.actions[i]);
    var (after, written) := if decided.blockers == [] then ExecutedAll(docs, c.run, decided.actions) else (docs, decided.actions);
    DecidedSettles(after, d, written[i], decided.blockers != []);
  }

  /** A decided action through the rest of its pass. */
  lemma DecidedSettles(docs: Docs, d: ActionView, x: ActionView, blocked: bool)
    requires d.verdict == Some(HOLD) && d.state in {Approved, Refused} && x == d.(state := x.state)
    requires if !blocked && IsExecutable(d) then x.state in {Executed, Failed, Unknown} else x == d
    ensures var state := VerifyOne(docs, x).state;
            if d.state == Refused then state == Refused else if blocked then state == Approved else state in {Verified, Failed}
  {
    hide ReadBack, DocOf;
  }

  lemma AwaitingIsHeld(a: ActionView)
    requires Lawful(a) && a.verdict.Some?
    ensures a.state == Awaiting ==> a.verdict == Some(HOLD)
  {
  }

  /** Passes one after another, each with the documents and approvals it finds. */
  function Passes(c: Case, found: seq<(Docs, map<(RunId, ActionId), Approval>)>): Case
    decreases |found|
  {
    if found == [] then c else Passes(Continued(found[0].0, found[0].1, c).kase, found[1..])
  }

  /** Over any number of passes nothing but states change, refused, verified and failed are final, and no move raises. */
  lemma {:induction false} OutcomesAreFinal(c: Case, found: seq<(Docs, map<(RunId, ActionId), Approval>)>)
    requires AllLawful(c.actions) && forall i :: 0 <= i < |c.actions| ==> Startable(c.actions[i])
    ensures var r := Passes(c, found);
            && r.run == c.run && |r.actions| == |c.actions| && AllLawful(r.actions)
            && (forall i :: 0 <= i < |c.actions| ==> r.actions[i] == c.actions[i].(state := r.actions[i].state))
            && (forall i :: 0 <= i < |c.actions| && c.actions[i].state in {Refused, Verified, Failed} ==>
                  r.actions[i] == c.actions[i])
    decreases |found|
  {
    hide Continued, Lawful, Startable;
    if found != [] {
      PassSettles(found[0].0, found[0].1, c);
      PassKeepsRun(found[0].0, found[0].1, c);
      OutcomesAreFinal(Continued(found[0].0, found[0].1, c).kase, found[1..]);
    }
  }

  lemma BlockersStay(docs: Docs, approvals: map<(RunId, ActionId), Approval>, c: Case)
    ensures forall x :: x in c.blockers ==> x in Continued(docs, approvals, c).kase.blockers
    ensures Continued(docs, approvals, c).kase.blockers != [] ==> Continued(docs, approvals, c).docs == docs
  {
    hide ExecutedAll, VerifiedAll, FinalStatus, NewBlockers, AddNew, WithDecisions;
    AddNewContains([], c.blockers + NewBlockers(AfterDecisions(approvals, c).actions));
  }

  /** A blocker is never lifted by continuing: once one is open, no later pass of the run writes anything. */
  lemma {:induction false} BlockedRunsWriteNothing(c: Case, found: seq<(Docs, map<(RunId, ActionId), Approval>)>, docs: Docs,
                                                   approvals: map<(RunId, ActionId), Approval>)
    requires c.blockers != []
    ensures Passes(c, found).blockers != []
    ensures Continued(docs, approvals, Passes(c, found)).docs == docs
    decreases |found|
  {
    hide Continued;
    if found == [] {
      BlockersStay(docs, approvals, c);
      assert c.blockers[0] in c.blockers;
    } else {
      var next := Continued(found[0].0, found[0].1, c).kase;
      BlockersStay(found[0].0, found[0].1, c);
      assert c.blockers[0] in next.blockers;
      BlockedRunsWriteNothing(next, found[1..], docs, approvals);
    }
  }

  lemma PassKeepsRun(docs: Docs, approvals: map<(RunId, ActionId), Approval>, c: Case)
    ensures Continued(docs, approvals, c).kase.run == c.run
  {
  }
}
