/** The runner: nine stages in a fixed order over the run's tables, with the actions of a case moved in place. */
module Rail {
  import opened Models
  import opened Order
  import opened Connector
  import opened Execute
  import opened FinalizeStage
  import opened Protocol
  import opened GovernPlan
  import opened PassSpec

  /** A capsule as stored: the case and the digest it was sealed with. */
  datatype Capsule = Capsule(kase: Case, digest: Case)

  function Views(actions: seq<Action>): seq<ActionView>
    reads actions
  {
    seq(|actions|, i requires 0 <= i < |actions| reads actions => actions[i].View())
  }

  predicate Distinct(actions: seq<Action>) {
    forall i, j :: 0 <= i < j < |actions| ==> actions[i] != actions[j]
  }

  /** The actions table holds exactly the case's actions. */
  ghost predicate RowsAgree(rows: map<(RunId, ActionId), ActionView>, run: RunId, actions: seq<ActionView>) {
    forall i :: 0 <= i < |actions| ==> (run, actions[i].id) in rows && rows[(run, actions[i].id)] == actions[i]
  }

  lemma ExecutedFrom(docs: Docs, run: RunId, actions: seq<ActionView>, i: nat)
    requires i <= |actions|
    ensures i == |actions| ==> ExecutedAll(docs, run, actions[i..]) == (docs, [])
    ensures i < |actions| ==>
              var (d, a) := ExecutedOne(docs, run, actions[i]);
              var (rest, states) := ExecutedAll(d, run, actions[i + 1..]);
              ExecutedAll(docs, run, actions[i..]) == (rest, [a] + states)
  {
    if i < |actions| {
      assert actions[i..][0] == actions[i] && actions[i..][1..] == actions[i + 1..];
    }
  }

  /** The records a run is compiled from: what the person and the peer hold, and the catalogue, read once. */
  function Compiled(body: Body, s: Subject, peer: string, names: seq<string>, baseline: seq<string>): Inputs
    requires body.Entitlements?
  {
    Inputs(Held(body, s.id), if peer == "" then [] else Held(body, peer), body.catalog, names, baseline)
  }

  /** The peer's access is asked for only where a peer is named, and only what the subject does not hold; the peer plays no
      part in any other request. */
  lemma PeerAccess(body: Body, s: Subject, peer: string, names: seq<string>, baseline: seq<string>, everything: bool, e: string)
    requires body.Entitlements? && forall n :: n in names ==> n in body.catalog
    ensures e in Wanted(SameAsPeer, everything, s, Compiled(body, s, peer, names, baseline)) <==>
            peer != "" && e in Held(body, peer) && e !in Held(body, s.id)
    ensures forall other :: e in Wanted(Onboarding, everything, s, Compiled(body, s, peer, names, baseline)) <==>
                            e in Wanted(Onboarding, everything, s, Compiled(body, s, other, names, baseline))
  {
    hide Wanted, Held;
    WantedExactly(SameAsPeer, everything, s, Compiled(body, s, peer, names, baseline), e);
    forall other ensures e in Wanted(Onboarding, everything, s, Compiled(body, s, peer, names, baseline)) <==>
                         e in Wanted(Onboarding, everything, s, Compiled(body, s, other, names, baseline)) {
      WantedExactly(Onboarding, everything, s, Compiled(body, s, peer, names, baseline), e);
      WantedExactly(Onboarding, everything, s, Compiled(body, s, other, names, baseline), e);
      assert forall r :: StandsFor(Compiled(body, s, peer, names, baseline), r, e) <==>
                         StandsFor(Compiled(body, s, other, names, baseline), r, e);
    }
  }

  /** One audit row per stage, in order. */
  function StageRows(run: RunId): seq<AuditRow> {
    seq(|STAGE_ORDER|, i requires 0 <= i < |STAGE_ORDER| => StageDone(run, STAGE_ORDER[i]))
  }

  /** What Discover can find. */
  datatype Found = NeedsAnswer | IsQuery | Person(subject: Subject)

  class Runner {
    const run: RunId
    const ent: FixtureConnector
    const gh: FixtureConnector
    var status: RunStatus
    var stage: Option<Stage>
    var capsule: Option<Capsule>
    var recorded: Option<Case>       // the capsule_digest column
    var rows: map<(RunId, ActionId), ActionView>
    var approvals: map<(RunId, ActionId), Approval>
    var jobs: seq<JobRow>
    var audit: seq<AuditRow>

    constructor (run: RunId, ent: FixtureConnector, gh: FixtureConnector)
      ensures this.run == run && this.ent == ent && this.gh == gh
      ensures status == Running && stage == None && capsule == None && recorded == None
      ensures rows == map[] && approvals == map[] && jobs == [] && audit == []
    {
      this.run, this.ent, this.gh := run, ent, gh;
      status, stage, capsule, recorded := Running, None, None, None;
      rows, approvals, jobs, audit := map[], map[], [], [];
    }

    function DocsNow(): Docs
      reads ent, gh
    {
      Docs(ent.doc, gh.doc)
    }

    /** Moves the run's status, or raises (ok is false) and changes nothing. */
    method SetStatus(to: RunStatus) returns (ok: bool)
      modifies this`status
      ensures ok == (to == old(status) || to in RunTransitions(old(status)))
      ensures status == if ok then to else old(status)
    {
      if status == to {
        return true;
      }
      if to !in RunTransitions(status) {
        return false;
      }
      status := to;
      return true;
    }

    /** Seals the case and stores it with its digest. */
    method SaveCase(c: Case, at: Stage)
      modifies this`capsule, this`recorded, this`stage
      ensures capsule == Some(Capsule(c, c)) && recorded == Some(c) && stage == Some(at)
    {
      capsule, recorded, stage := Some(Capsule(c, c)), Some(c), Some(at);
    }

    // --- approve ------------------------------------------------------------------------------------------------

    method ApplyOne(a: Action) returns (counted: bool, isVoid: bool)
      requires Lawful(a.View())
      modifies a
      ensures a.View() == WithDecision(approvals, run, old(a.View()))
      ensures counted == Counts(approvals, run, old(a.View())) && isVoid == IsVoid(approvals, run, old(a.View()))
    {
      counted, isVoid := false, false;
      if a.state == Awaiting && (run, a.id) in approvals {
        var d := approvals[(run, a.id)];
        if d.params != a.params {
          isVoid := true;
        } else {
          var ok := a.Transition(if d.decision == Decision.Approve then Approved else Refused);
          assert ok;
          counted := true;
        }
      }
    }

    /** Decisions recorded by any door, brought into the case. No transition raises. */
    method ApplyRecorded(actions: seq<Action>) returns (decided: set<ActionId>, voided: set<ActionId>)
      requires Distinct(actions) && AllLawful(Views(actions))
      modifies actions
      ensures Views(actions) == WithDecisions(approvals, run, old(Views(actions)))
      ensures decided == DecidedIds(approvals, Case(run, old(Views(actions)), []))
      ensures voided == VoidIds(approvals, run, old(Views(actions)))
    {
      hide Lawful, WithDecision, DecidedIds, VoidIds, Counts, IsVoid;
      ghost var before := Views(actions);
      decided, voided := {}, {};
      assert before[0..] == before;
      for i := 0 to |actions|
        invariant forall k :: 0 <= k < |actions| ==>
                    actions[k].View() == if k < i then WithDecision(approvals, run, before[k]) else before[k]
        invariant decided + DecidedIds(approvals, Case(run, before[i..], [])) == DecidedIds(approvals, Case(run, before, []))
        invariant voided + VoidIds(approvals, run, before[i..]) == VoidIds(approvals, run, before)
      {
        var a := actions[i];
        assert Lawful(before[i]);
        DecidedSplit(approvals, run, before[i..]);
        assert before[i..][0] == before[i] && before[i..][1..] == before[i + 1..];
        var counted, isVoid := ApplyOne(a);
        if counted {
          decided := decided + {a.id};
        }
        if isVoid {
          voided := voided + {a.id};
        }
      }
      NoIds(approvals, run, before[|actions|..]);
    }

    /** A dispatch job for every awaiting action with a named approver, unless one stands under its key; an unresolved approver
        is a blocker. */
    method DispatchHolds(actions: seq<Action>) returns (blockers: seq<string>)
      modifies this`jobs
      ensures jobs == Dispatched(old(jobs), run, Views(actions))
      ensures blockers == NewBlockers(Views(actions))
    {
      hide NoApprover, Enqueue;
      var v := Views(actions);
      blockers := [];
      for i := 0 to |actions|
        invariant Dispatched(jobs, run, v[i..]) == Dispatched(old(jobs), run, v)
        invariant blockers + NewBlockers(v[i..]) == NewBlockers(v)
      {
        assert v[i..][1..] == v[i + 1..] && v[i] == actions[i].View();
        if actions[i].state == Awaiting {
          if Unresolved(actions[i].approver) {
            blockers := blockers + [NoApprover(v[i])];
          } else {
            jobs := Enqueue(jobs, AskFor(run, v[i]));
          }
        }
      }
    }

    // --- execute and verify -------------------------------------------------------------------------------------

    method ExecuteOne(a: Action) returns (wrote: bool)
      requires Lawful(a.View()) && ent != gh
      modifies a, ent, gh
      ensures (DocsNow(), a.View()) == ExecutedOne(old(DocsNow()), run, old(a.View()))
      ensures wrote == IsExecutable(old(a.View()))
    {
      wrote := IsExecutable(a.View());
      if wrote {
        OutcomeIsAMove(DocOf(DocsNow(), a.params), Key(run, a.id, a.params), 1, MAX_ATTEMPTS);
        var out := ExecuteAction(a, run, if ToGitHub(a.params) then gh else ent, MAX_ATTEMPTS);
        var ok := a.Transition(out.value.state);
        assert ok;
      }
    }

    method ExecuteAll(actions: seq<Action>) returns (executed: set<ActionId>)
      requires Distinct(actions) && AllLawful(Views(actions)) && ent != gh
      modifies actions, ent, gh
      ensures (DocsNow(), Views(actions)) == ExecutedAll(old(DocsNow()), run, old(Views(actions)))
      ensures executed == WrittenIds(old(Views(actions)))
    {
      hide ExecutedOne, ExecutedAll, Lawful, IsExecutable, WrittenIds;
      ghost var before := Views(actions);
      ghost var docs, done := DocsNow(), [];
      executed := {};
      assert before[0..] == before;
      for i := 0 to |actions|
        invariant |done| == i
        invariant forall k :: 0 <= k < |actions| ==> actions[k].View() == if k < i then done[k] else before[k]
        invariant ExecutedAll(docs, run, before).0 == ExecutedAll(DocsNow(), run, before[i..]).0
        invariant ExecutedAll(docs, run, before).1 == done + ExecutedAll(DocsNow(), run, before[i..]).1
        invariant executed + WrittenIds(before[i..]) == WrittenIds(before)
      {
        var a := actions[i];
        ExecutedFrom(DocsNow(), run, before, i);
        IdsSplit(before[i..]);
        assert before[i..][0] == before[i] && before[i..][1..] == before[i + 1..];
        assert Lawful(before[i]);
        var wrote := ExecuteOne(a);
        if wrote {
          executed := executed + {a.id};
        }
        done := done + [a.View()];
      }
      ExecutedFrom(DocsNow(), run, before, |actions|);
      NoIds(approvals, run, before[|actions|..]);
      assert Views(actions) == done == done + [];
    }

    method VerifyOneAction(a: Action) returns (checked: bool)
      requires Lawful(a.View())
      modifies a
      ensures a.View() == VerifyOne(DocsNow(), old(a.View())) && checked == Verifiable(old(a.View()).state)
    {
      checked := Verifiable(a.state);
      if checked {
        var connector := if ToGitHub(a.params) then gh else ent;
        var r := connector.VerifyAction(a);
        var ok := a.Transition(VerifiedState(r));
        assert ok;
      }
    }

    method VerifyAll(actions: seq<Action>) returns (checked: set<ActionId>)
      requires Distinct(actions) && AllLawful(Views(actions))
      modifies actions
      ensures Views(actions) == VerifiedAll(DocsNow(), old(Views(actions)))
      ensures checked == CheckedIds(old(Views(actions)))
    {
      hide VerifyOne, Lawful, CheckedIds, Verifiable;
      ghost var before, docs := Views(actions), DocsNow();
      checked := {};
      assert before[0..] == before;
      for i := 0 to |actions|
        invariant DocsNow() == docs
        invariant forall k :: 0 <= k < |actions| ==>
                    actions[k].View() == if k < i then VerifyOne(docs, before[k]) else before[k]
        invariant checked + CheckedIds(before[i..]) == CheckedIds(before)
      {
        var a := actions[i];
        assert Lawful(before[i]);
        IdsSplit(before[i..]);
        assert before[i..][0] == before[i] && before[i..][1..] == before[i + 1..];
        var written := VerifyOneAction(a);
        if written {
          checked := checked + {a.id};
        }
      }
      NoIds(approvals, run, before[|actions|..]);
    }

    // --- a pass -------------------------------------------------------------------------------------------------

    /** Saves the states of the given ids; a missing row or a refused move of a REFUSE row raises. */
    method Sync(views: seq<ActionView>, ids: set<ActionId>)
      requires CanSync(rows, run, views, ids)
      modifies this`rows
      ensures rows == Synced(old(rows), run, views, ids)
    {
      assert views[0..] == views;
      for i := 0 to |views|
        invariant Synced(rows, run, views[i..], ids) == Synced(old(rows), run, views, ids)
        invariant forall k :: k in old(rows) ==> k in rows
      {
        assert views[i..][0] == views[i] && views[i..][1..] == views[i + 1..];
        if views[i].id in ids {
          var k := (run, views[i].id);
          rows := rows[k := rows[k].(state := views[i].state)];
        }
      }
    }

    /** The actions of a pass: separate objects, lawful, each with its own id, and the table agrees with them. */
    ghost predicate Ready(actions: seq<Action>)
      reads this`rows, actions
    {
      && Distinct(actions) && ent != gh
      && AllLawful(Views(actions)) && DistinctIds(Views(actions)) && RowsAgree(rows, run, Views(actions))
    }

    method ApproveStage(actions: seq<Action>, openBlockers: seq<string>) returns (blockers: seq<string>)
      requires Ready(actions)
      modifies actions, this`stage, this`capsule, this`recorded, this`rows, this`jobs, this`audit
      ensures Ready(actions)
      ensures Case(run, Views(actions), blockers) == AfterDecisions(approvals, Case(run, old(Views(actions)), openBlockers))
      ensures jobs == Dispatched(old(jobs), run, Views(actions))
      ensures audit == old(audit) + [StageDone(run, Stage.Approve)]
    {
      hide Lawful, Dispatched, Synced, Merged, NewBlockers, CanSync;
      ghost var c := Case(run, Views(actions), openBlockers);
      DecisionsSync(rows, approvals, c);
      var decided, voided := ApplyRecorded(actions);
      var unresolved := DispatchHolds(actions);
      blockers := Merged(openBlockers, unresolved);
      SaveCase(Case(run, Views(actions), blockers), Stage.Approve);
      assert decided == DecidedIds(approvals, c);
      Sync(Views(actions), decided);
      audit := audit + [StageDone(run, Stage.Approve)];
    }

    /** Nothing executes while a blocker is open. */
    method ExecuteStage(actions: seq<Action>, blockers: seq<string>)
      requires Ready(actions)
      modifies actions, ent, gh, this`stage, this`capsule, this`recorded, this`rows, this`audit
      ensures Ready(actions)
      ensures (DocsNow(), Views(actions)) ==
              if blockers == [] then ExecutedAll(old(DocsNow()), run, old(Views(actions)))
              else (old(DocsNow()), old(Views(actions)))
      ensures audit == old(audit) + [StageDone(run, Stage.Execute)]
    {
      hide Lawful, Synced, ExecutedAll, CanSync, IsExecutable;
      ghost var before := Views(actions);
      var executed := {};
      if blockers == [] {
        ExecutedIsLawful(DocsNow(), run, before);
        executed := ExecuteAll(actions);
      }
      SaveCase(Case(run, Views(actions), blockers), Stage.Execute);
      WritesSync(rows, run, before, Views(actions), executed);
      Sync(Views(actions), executed);
      audit := audit + [StageDone(run, Stage.Execute)];
    }

    method VerifyStage(actions: seq<Action>, blockers: seq<string>)
      requires Ready(actions)
      modifies actions, this`stage, this`capsule, this`recorded, this`rows, this`audit
      ensures Ready(actions)
      ensures Views(actions) == VerifiedAll(DocsNow(), old(Views(actions)))
      ensures audit == old(audit) + [StageDone(run, Stage.Verify)]
    {
      hide Lawful, Synced, CanSync, VerifyOne, VerifiedAll, Verifiable, MovesOnly;
      ghost var before := Views(actions);
      VerifiedIsLawful(DocsNow(), before);
      var checked := VerifyAll(actions);
      SaveCase(Case(run, Views(actions), blockers), Stage.Verify);
      WritesSync(rows, run, before, Views(actions), checked);
      Sync(Views(actions), checked);
      audit := audit + [StageDone(run, Stage.Verify)];
    }

    method FinishStage(actions: seq<Action>, blockers: seq<string>) returns (st: RunStatus)
      requires status == Running
      modifies this`status, this`stage, this`capsule, this`recorded, this`jobs, this`audit
      ensures st == status == FinalStatus(Views(actions), blockers)
      ensures var c := Case(run, Views(actions), blockers);
              capsule == Some(Capsule(c, c)) && recorded == Some(c) && jobs == Enqueue(old(jobs), ReceiptOf(c))
      ensures stage == Some(Finalize) && audit == old(audit) + [StageDone(run, Stage.Finalize)]
    {
      hide FinalStatus, ReceiptOf;
      st := FinalStatus(Views(actions), blockers);
      SaveCase(Case(run, Views(actions), blockers), Stage.Finalize);
      FinalStatusIsEarned(Views(actions), blockers);
      var ok := SetStatus(st);
      assert ok;
      jobs := Enqueue(jobs, ReceiptOf(Case(run, Views(actions), blockers)));
      audit := audit + [StageDone(run, Stage.Finalize)];
    }

    /** Approve, execute unless a blocker is open, verify, finalize: exactly the pass `Continued` describes, with the
        capsule, the actions table, the jobs and the audit following it, and no transition raising. */
    method Continue(actions: seq<Action>, openBlockers: seq<string>) returns (st: RunStatus)
      requires Ready(actions) && status == Running
      modifies actions, ent, gh, this`status, this`stage, this`capsule, this`recorded, this`rows, this`jobs, this`audit
      ensures Ready(actions)
      ensures var c := Case(run, old(Views(actions)), openBlockers);
              var r := Continued(old(DocsNow()), approvals, c);
              && DocsNow() == r.docs && Views(actions) == r.kase.actions && st == status == r.status
              && capsule == Some(Capsule(r.kase, r.kase)) && recorded == Some(r.kase)
              && jobs == Enqueue(Dispatched(old(jobs), run, AfterDecisions(approvals, c).actions), ReceiptOf(r.kase))
      ensures stage == Some(Finalize)
      ensures audit == old(audit) + [StageDone(run, Stage.Approve), StageDone(run, Stage.Execute),
                                     StageDone(run, Stage.Verify), StageDone(run, Stage.Finalize)]
    {
      hide AfterDecisions, ReceiptOf, ExecutedAll, VerifiedAll, Dispatched, Ready, FinalStatus, Views, Continued;
      ghost var c, docs := Case(run, Views(actions), openBlockers), DocsNow();
      var prev := CheckStageOrder(Some(Handoff), Stage.Approve);
      assert prev.Some?;
      var blockers := ApproveStage(actions, openBlockers);
      ghost var decided := Case(run, Views(actions), blockers);
      prev := CheckStageOrder(prev, Stage.Execute);
      assert prev.Some?;
      ExecuteStage(actions, blockers);
      ghost var written := Views(actions);
      prev := CheckStageOrder(prev, Stage.Verify);
      assert prev.Some?;
      VerifyStage(actions, blockers);
      prev := CheckStageOrder(prev, Stage.Finalize);
      assert prev.Some?;
      st := FinishStage(actions, blockers);
      ContinuedSteps(docs, approvals, c, decided, DocsNow(), written, Views(actions));
    }

    // --- handoff and resume -------------------------------------------------------------------------------------

    method Halt(event: AuditRow)
      requires status == Running
      modifies this`status, this`audit
      ensures status == RunFailed && audit == old(audit) + [event]
    {
      audit := audit + [event];
      var ok := SetStatus(RunFailed);
      assert ok;
    }

    /** New objects for every action of a stored case. */
    method LoadActions(views: seq<ActionView>) returns (actions: seq<Action>)
      ensures fresh(actions) && Distinct(actions) && Views(actions) == views
    {
      actions := [];
      for i := 0 to |views|
        invariant |actions| == i && fresh(actions) && Distinct(actions)
        invariant forall k :: 0 <= k < i ==> actions[k].View() == views[k]
      {
        var a := new Action.Load(views[i]);
        actions := actions + [a];
      }
    }

    /** The case is received by value. Anything but the case that was sealed and recorded halts the run, before any
        action could be written. */
    method HandOff() returns (ok: bool, actions: seq<Action>, blockers: seq<string>)
      requires capsule.Some? && recorded.Some? && status == Running
      modifies this`status, this`stage, this`audit
      ensures ok == (capsule.value.kase == capsule.value.digest == recorded.value)
      ensures ok ==> fresh(actions) && Distinct(actions) && Views(actions) == recorded.value.actions
      ensures ok ==> blockers == recorded.value.blockers && status == Running && stage == Some(Handoff)
                     && audit == old(audit) + [StageDone(run, Stage.Handoff)]
      ensures !ok ==> status == RunFailed && audit == old(audit) + [DigestMismatch(run)]
    {
      actions, blockers := [], [];
      var c := capsule.value;
      ok := c.kase == c.digest && c.digest == recorded.value;
      if !ok {
        Halt(DigestMismatch(run));
        return;
      }
      actions := LoadActions(c.kase.actions);
      blockers := c.kase.blockers;
      stage := Some(Handoff);
      audit := audit + [StageDone(run, Stage.Handoff)];
    }

    /** The sealed case, and what a pass may rely on when it starts from it. */
    ghost predicate Sound(c: Case)
      reads this`rows
    {
      && c.run == run && ent != gh
      && AllLawful(c.actions) && DistinctIds(c.actions) && RowsAgree(rows, run, c.actions)
    }

    /** Continues a run that waits for decisions from the recorded case; any other run is left as it is. */
    method Resume() returns (st: RunStatus)
      requires status == AwaitingApproval ==> capsule.Some? && recorded.Some? && Sound(recorded.value)
      modifies ent, gh, this`status, this`stage, this`capsule, this`recorded, this`rows, this`jobs, this`audit
      ensures old(status) != AwaitingApproval ==>
                st == status == old(status) && DocsNow() == old(DocsNow()) && capsule == old(capsule) &&
                rows == old(rows) && jobs == old(jobs) && audit == old(audit) && stage == old(stage)
      ensures old(status) == AwaitingApproval && old(capsule) != Some(Capsule(old(recorded).value, old(recorded).value)) ==>
                st == status == RunFailed && DocsNow() == old(DocsNow()) && rows == old(rows) && jobs == old(jobs) &&
                audit == old(audit) + [DigestMismatch(run)]
      ensures old(status) == AwaitingApproval && old(capsule) == Some(Capsule(old(recorded).value, old(recorded).value)) ==>
                var r := Continued(old(DocsNow()), approvals, old(recorded).value);
                && DocsNow() == r.docs && st == status == r.status
                && capsule == Some(Capsule(r.kase, r.kase)) && recorded == Some(r.kase)
                && Sound(r.kase) && stage == Some(Finalize)
                && jobs == Enqueue(Dispatched(old(jobs), run, AfterDecisions(approvals, old(recorded).value).actions), ReceiptOf(r.kase))
                && audit == old(audit) + [StageDone(run, Stage.Handoff), StageDone(run, Stage.Approve),
                                          StageDone(run, Stage.Execute), StageDone(run, Stage.Verify),
                                          StageDone(run, Stage.Finalize)]
    {
      hide Continued, AfterDecisions, ReceiptOf, Dispatched, RowsAgree, AllLawful, DistinctIds;
      if status != AwaitingApproval {
        return status;
      }
      status := Running;
      var ok, actions, blockers := HandOff();
      if !ok {
        return status;
      }
      assert Case(run, Views(actions), blockers) == recorded.value;
      st := Continue(actions, blockers);
      PassKeepsRun(old(DocsNow()), approvals, old(recorded).value);
    }

    // --- the door -----------------------------------------------------------------------------------------------

    /** The first insert for an action wins. */
    method RecordApproval(k: (RunId, ActionId), d: Approval) returns (won: bool)
      modifies this`approvals
      ensures won == (k !in old(approvals))
      ensures approvals == if won then old(approvals)[k := d] else old(approvals)
    {
      won := k !in approvals;
      if won {
        approvals := approvals[k := d];
      }
    }

    /** One decision through any door, uninterrupted. A rejection leaves only its audit row, a late call nothing at all;
        a recorded decision is audited, mirrored and continues the run from the sealed case, or halts it when that case
        was altered. */
    method Decide(action: ActionId, params: Params, channel: string, actor: Option<Person>, external: string,
                  decision: Decision, info: RunInfo, call: nat) returns (r: DecisionResult)
      requires status == AwaitingApproval ==> capsule.Some? && recorded.Some? && Sound(recorded.value)
      modifies ent, gh, this`status, this`stage, this`capsule, this`recorded, this`rows, this`jobs, this`audit, this`approvals
      ensures r == DoorAnswer(old(rows), old(approvals), run, action, params, channel, actor, decision, info)
      ensures !r.Recorded? ==> DocsNow() == old(DocsNow()) && approvals == old(approvals) && rows == old(rows) &&
                               jobs == old(jobs) && status == old(status) && capsule == old(capsule)
      ensures r.Rejected? ==> audit == old(audit) + [NotDecided(run, action, if actor.None? then external else actor.value)]
      ensures r.AlreadyDecided? ==> audit == old(audit)
      ensures r.Recorded? ==>
                approvals == old(approvals)[(run, action) := Approval(params, actor.value, decision, channel, call,
                                                                      old(rows)[(run, action)], info)]
      ensures r.Recorded? && old(status) != AwaitingApproval ==>
                && DocsNow() == old(DocsNow()) && rows == old(rows) && status == old(status)
                && audit == old(audit) + [Decided(run, action, actor.value, decision, channel, params)]
                && jobs == Enqueue(Enqueue(old(jobs), Mirror(run, action)), DoorUpdate(run, action))
      ensures r.Recorded? && old(status) == AwaitingApproval && old(capsule) == Some(Capsule(old(recorded).value, old(recorded).value)) ==>
                var p := Continued(old(DocsNow()), approvals, old(recorded).value);
                && DocsNow() == p.docs && status == p.status && recorded == Some(p.kase) && Sound(p.kase)
                && jobs == Enqueue(Dispatched(Enqueue(Enqueue(old(jobs), Mirror(run, action)), DoorUpdate(run, action)), run,
                                              AfterDecisions(approvals, old(recorded).value).actions), ReceiptOf(p.kase))
                && audit == old(audit) + [Decided(run, action, actor.value, decision, channel, params),
                                          StageDone(run, Stage.Handoff), StageDone(run, Stage.Approve),
                                          StageDone(run, Stage.Execute), StageDone(run, Stage.Verify),
                                          StageDone(run, Stage.Finalize)]
      ensures r.Recorded? && old(status) == AwaitingApproval && old(capsule) != Some(Capsule(old(recorded).value, old(recorded).value)) ==>
                && DocsNow() == old(DocsNow()) && rows == old(rows) && status == RunFailed
                && jobs == Enqueue(Enqueue(old(jobs), Mirror(run, action)), DoorUpdate(run, action))
                && audit == old(audit) + [Decided(run, action, actor.value, decision, channel, params), DigestMismatch(run)]
    {
      hide Continued, MayDecide, Sound, Enqueue, Dispatched, AfterDecisions, ReceiptOf;
      var k := (run, action);
      if actor.None? || k !in rows {
        audit := audit + [NotDecided(run, action, if actor.None? then external else actor.value)];
        return Rejected;
      }
      if k in approvals {
        return AlreadyDecided(approvals[k].approver, approvals[k].channel);
      }
      if !MayDecide(Call(run, action, params, channel, actor.value, decision, Asked), info, rows[k]) {
        audit := audit + [NotDecided(run, action, actor.value)];
        return Rejected;
      }
      var won := RecordApproval(k, Approval(params, actor.value, decision, channel, call, rows[k], info));
      assert won;
      audit := audit + [Decided(run, action, actor.value, decision, channel, params)];
      jobs := Enqueue(Enqueue(jobs, Mirror(run, action)), DoorUpdate(run, action));
      var st := Resume();
      return Recorded(actor.value, channel);
    }

    // --- the first pass -----------------------------------------------------------------------------------------

    /** Compile, Govern and Plan: the sealed case holds every candidate and every transfer revoke, decided and ordered.
        None: the catalogue lacks an entitlement the records name, and the pass stops with an exception. */
    method PlanStages(s: Subject, intent: Intent, everything: bool, peer: string, names: seq<string>,
                      baseline: seq<string>, compileBlockers: seq<string>, decide: Params -> Verdict)
      returns (plan: Option<seq<ActionView>>)
      requires stage == Some(Discover)
      requires ent.doc.body.Entitlements? && Decides(decide) && forall n :: n in names ==> n in ent.doc.body.catalog
      modifies this`stage, this`capsule, this`recorded, this`rows, this`audit
      ensures var inputs := Compiled(ent.doc.body, s, peer, names, baseline);
              var grants := Candidates(intent, everything, s, inputs);
              var revokes := TransferRevokes(s, inputs);
              && (grants.None? || revokes.None? <==> plan.None?)
              && (plan.Some? ==> plan.value == PlanOf(grants.value, revokes.value, decide))
      ensures plan.Some? ==>
                && AllLawful(plan.value) && DistinctIds(plan.value) && RowsAgree(rows, run, plan.value)
                && recorded == Some(Case(run, plan.value, compileBlockers)) && stage == Some(Stage.Plan)
                && capsule == Some(Capsule(recorded.value, recorded.value))
                && audit == old(audit) + [StageDone(run, Stage.Compile), StageDone(run, Stage.Govern),
                                          StageDone(run, Stage.Plan)]
    {
      hide RowsAgree, AllLawful, DistinctIds, Candidates, TransferRevokes, PlanOf, StampAll, Judged, Upserted, SortBy, PlanKey;
      var prev := CheckStageOrder(stage, Stage.Compile);
      assert prev.Some?;
      var inputs := Compiled(ent.doc.body, s, peer, names, baseline);
      SaveCase(Case(run, [], compileBlockers), Stage.Compile);
      audit := audit + [StageDone(run, Stage.Compile)];

      prev := CheckStageOrder(prev, Stage.Govern);

      assert prev.Some?;
      var grants := BuildCandidates(intent, everything, s, inputs);
      if grants.None? {
        return None;
      }
      var governed := Evaluate(grants.value, decide);
      SaveCase(Case(run, governed, compileBlockers), Stage.Govern);
      rows := Upserted(rows, run, governed);
      audit := audit + [StageDone(run, Stage.Govern)];

      prev := CheckStageOrder(prev, Stage.Plan);

      assert prev.Some?;
      var revokes := TransferRevokes(s, inputs);
      if revokes.None? {
        return None;
      }
      var revoked := Evaluate(revokes.value, decide);
      var ordered := SortBy(governed + revoked, PlanKey);
      PlanUnfolds(grants.value, revokes.value, decide);
      PlanIsSound(rows, run, intent, everything, s, inputs, decide);
      SaveCase(Case(run, ordered, compileBlockers), Stage.Plan);
      rows := Upserted(rows, run, ordered);
      audit := audit + [StageDone(run, Stage.Plan)];
      return Some(ordered);
    }

    /** From Compile to Finalize, for the person Discover found. */
    method Proceed(s: Subject, intent: Intent, everything: bool, peer: string, names: seq<string>, baseline: seq<string>,
                   compileBlockers: seq<string>, decide: Params -> Verdict) returns (st: Option<RunStatus>)
      requires status == Running && stage == Some(Discover) && ent != gh
      requires ent.doc.body.Entitlements? && Decides(decide) && forall n :: n in names ==> n in ent.doc.body.catalog
      modifies ent, gh, this`status, this`stage, this`capsule, this`recorded, this`rows, this`jobs, this`audit
      ensures var inputs := old(Compiled(ent.doc.body, s, peer, names, baseline));
              var grants := Candidates(intent, everything, s, inputs);
              var revokes := TransferRevokes(s, inputs);
              if grants.None? || revokes.None? then st == None && DocsNow() == old(DocsNow())
              else
                var c := Case(run, PlanOf(grants.value, revokes.value, decide), compileBlockers);
                var r := Continued(old(DocsNow()), approvals, c);
                && DocsNow() == r.docs && st == Some(status) && status == r.status
                && capsule == Some(Capsule(r.kase, r.kase)) && recorded == Some(r.kase) && Sound(r.kase)
                && jobs == Enqueue(Dispatched(old(jobs), run, AfterDecisions(approvals, c).actions), ReceiptOf(r.kase))
                && audit == old(audit) + StageRows(run)[1..]
    {
      hide Continued, AfterDecisions, ReceiptOf, Dispatched, RowsAgree, AllLawful, DistinctIds, Candidates,
           TransferRevokes, PlanOf, StampAll, Judged, Upserted, SortBy, PlanKey, Compiled;
      var plan := PlanStages(s, intent, everything, peer, names, baseline, compileBlockers, decide);
      if plan.None? {
        return None;
      }
      var c := Case(run, plan.value, compileBlockers);
      var ok, actions, blockers := HandOff();
      var final := Continue(actions, blockers);
      PassKeepsRun(old(DocsNow()), approvals, c);
      return Some(final);
    }

    /** Everything from Discover to Finalize. None: the run may not run now, or the catalogue lacks an entitlement the
        records name, and the pass stops with an exception. */
    method RunRail(found: Found, intent: Intent, everything: bool, peer: string, names: seq<string>,
                   baseline: seq<string>, compileBlockers: seq<string>, decide: Params -> Verdict)
      returns (st: Option<RunStatus>)
      requires ent != gh && ent.doc.body.Entitlements? && Decides(decide)
      requires forall n :: n in names ==> n in ent.doc.body.catalog
      modifies ent, gh, this`status, this`stage, this`capsule, this`recorded, this`rows, this`jobs, this`audit
      ensures old(status) != Running && old(status) != NeedsInput ==>
                st == None && status == old(status) && DocsNow() == old(DocsNow()) && audit == old(audit)
      ensures (old(status) == Running || old(status) == NeedsInput) && !found.Person? ==>
                st == Some(status) && status == (if found.IsQuery? then Done else NeedsInput) &&
                DocsNow() == old(DocsNow()) && rows == old(rows) && jobs == old(jobs)
      ensures (old(status) == Running || old(status) == NeedsInput) && found.Person? ==>
                var inputs := old(Compiled(ent.doc.body, found.subject, peer, names, baseline));
                var grants := Candidates(intent, everything, found.subject, inputs);
                var revokes := TransferRevokes(found.subject, inputs);
                if grants.None? || revokes.None? then st == None && DocsNow() == old(DocsNow())
                else
                  var c := Case(run, PlanOf(grants.value, revokes.value, decide), compileBlockers);
                  var r := Continued(old(DocsNow()), approvals, c);
                  && DocsNow() == r.docs && st == Some(status) && status == r.status
                  && capsule == Some(Capsule(r.kase, r.kase)) && recorded == Some(r.kase) && Sound(r.kase)
                  && jobs == Enqueue(Dispatched(old(jobs), run, AfterDecisions(approvals, c).actions), ReceiptOf(r.kase))
                  && audit == old(audit) + StageRows(run)
    {
      hide Continued, Candidates, TransferRevokes, PlanOf, Compiled, Sound, Decides, Dispatched, AfterDecisions, ReceiptOf;
      if status != Running && status != NeedsInput {
        return None;
      }
      status := Running;
      var prev := CheckStageOrder(None, Stage.Discover);
      assert prev.Some?;
      stage := prev;
      audit := audit + [StageDone(run, Stage.Discover)];
      if !found.Person? {
        var ok := SetStatus(if found.IsQuery? then Done else NeedsInput);
        assert ok;
        return Some(status);
      }
      st := Proceed(found.subject, intent, everything, peer, names, baseline, compileBlockers, decide);
      assert StageRows(run) == [StageDone(run, Stage.Discover)] + StageRows(run)[1..];
    }
  }

  lemma NoIds(approvals: map<(RunId, ActionId), Approval>, run: RunId, actions: seq<ActionView>)
    requires actions == []
    ensures WrittenIds(actions) == {} && CheckedIds(actions) == {} && VoidIds(approvals, run, actions) == {}
    ensures DecidedIds(approvals, Case(run, actions, [])) == {}
  {
  }

  lemma ContinuedSteps(docs: Docs, approvals: map<(RunId, ActionId), Approval>, c: Case, decided: Case, d: Docs,
                       written: seq<ActionView>, checked: seq<ActionView>)
    requires decided == AfterDecisions(approvals, c)
    requires (d, written) == if decided.blockers == [] then ExecutedAll(docs, c.run, decided.actions)
                             else (docs, decided.actions)
    requires checked == VerifiedAll(d, written) && decided.run == c.run
    ensures Continued(docs, approvals, c) ==
            PassResult(d, Case(c.run, checked, decided.blockers), FinalStatus(checked, decided.blockers))
  {
  }

  // --- what the saves rely on -----------------------------------------------------------------------------------

  /** `after` is `before` with states changed, at most for the ids in `ids`. */
  ghost predicate MovesOnly(before: seq<ActionView>, after: seq<ActionView>, ids: set<ActionId>) {
    && |after| == |before|
    && forall i :: 0 <= i < |after| ==>
         after[i] == before[i].(state := after[i].state) && (after[i] != before[i] ==> before[i].id in ids)
  }

  lemma {:induction false} SyncedElsewhere(rows: map<(RunId, ActionId), ActionView>, run: RunId,
                                           actions: seq<ActionView>, ids: set<ActionId>, k: (RunId, ActionId))
    requires k in rows && forall i :: 0 <= i < |actions| ==> (run, actions[i].id) != k
    ensures k in Synced(rows, run, actions, ids) && Synced(rows, run, actions, ids)[k] == rows[k]
    decreases |actions|
  {
    if actions != [] {
      var k0 := (run, actions[0].id);
      var next := if actions[0].id in ids && k0 in rows then rows[k0 := rows[k0].(state := actions[0].state)] else rows;
      SyncedElsewhere(next, run, actions[1..], ids, k);
    }
  }

  lemma {:induction false} SyncedAt(rows: map<(RunId, ActionId), ActionView>, run: RunId, actions: seq<ActionView>,
                                    ids: set<ActionId>, i: nat)
    requires i < |actions| && DistinctIds(actions) && (run, actions[i].id) in rows
    ensures var k := (run, actions[i].id);
            && k in Synced(rows, run, actions, ids)
            && Synced(rows, run, actions, ids)[k] ==
               if actions[i].id in ids then rows[k].(state := actions[i].state) else rows[k]
    decreases |actions|
  {
    var k0 := (run, actions[0].id);
    var next := if actions[0].id in ids && k0 in rows then rows[k0 := rows[k0].(state := actions[0].state)] else rows;
    if i == 0 {
      SyncedElsewhere(next, run, actions[1..], ids, k0);
    } else {
      SyncedAt(next, run, actions[1..], ids, i - 1);
    }
  }

  /** Saving the states of the moved actions makes the table agree with the case again. */
  lemma WritesSync(rows: map<(RunId, ActionId), ActionView>, run: RunId, before: seq<ActionView>,
                   after: seq<ActionView>, ids: set<ActionId>)
    requires RowsAgree(rows, run, before) && MovesOnly(before, after, ids) && DistinctIds(before) && AllLawful(after)
    ensures CanSync(rows, run, after, ids) && RowsAgree(Synced(rows, run, after, ids), run, after) && DistinctIds(after)
  {
    assert forall i :: 0 <= i < |after| ==> after[i].id == before[i].id;
    forall i | 0 <= i < |after|
      ensures (run, after[i].id) in Synced(rows, run, after, ids)
      ensures Synced(rows, run, after, ids)[(run, after[i].id)] == after[i]
    {
      SyncedAt(rows, run, after, ids, i);
    }
    forall i | 0 <= i < |after| && after[i].verdict == Some(REFUSE) ensures after[i].state == Refused {
      assert Lawful(after[i]);
    }
  }

  lemma DecisionsSync(rows: map<(RunId, ActionId), ActionView>, approvals: map<(RunId, ActionId), Approval>, c: Case)
    requires RowsAgree(rows, c.run, c.actions) && DistinctIds(c.actions) && AllLawful(c.actions)
    ensures var after := AfterDecisions(approvals, c).actions;
            && CanSync(rows, c.run, after, DecidedIds(approvals, c))
            && RowsAgree(Synced(rows, c.run, after, DecidedIds(approvals, c)), c.run, after)
            && DistinctIds(after) && AllLawful(after)
            && after == WithDecisions(approvals, c.run, c.actions)
  {
    DecidedIsLawful(approvals, c);
    WritesSync(rows, c.run, c.actions, AfterDecisions(approvals, c).actions, DecidedIds(approvals, c));
  }

  lemma VerifiedIsLawful(docs: Docs, actions: seq<ActionView>)
    requires AllLawful(actions)
    ensures AllLawful(VerifiedAll(docs, actions))
    ensures MovesOnly(actions, VerifiedAll(docs, actions), CheckedIds(actions))
  {
    forall i | 0 <= i < |actions| ensures Lawful(VerifyOne(docs, actions[i])) {
      assert Lawful(actions[i]);
    }
  }

  lemma PlanUnfolds(grants: seq<(ActionId, Params)>, revokes: seq<(ActionId, Params)>, decide: Params -> Verdict)
    ensures SortBy(StampAll(Judged(grants, decide)) + StampAll(Judged(revokes, decide)), PlanKey) ==
            PlanOf(grants, revokes, decide)
  {
  }

  lemma {:induction false} UpsertedElsewhere(rows: map<(RunId, ActionId), ActionView>, run: RunId,
                                             actions: seq<ActionView>, k: (RunId, ActionId))
    requires k in rows && forall i :: 0 <= i < |actions| ==> (run, actions[i].id) != k
    ensures k in Upserted(rows, run, actions) && Upserted(rows, run, actions)[k] == rows[k]
    decreases |actions|
  {
    if actions != [] {
      UpsertedElsewhere(rows[(run, actions[0].id) := actions[0]], run, actions[1..], k);
    }
  }

  lemma {:induction false} UpsertedAgree(rows: map<(RunId, ActionId), ActionView>, run: RunId, actions: seq<ActionView>)
    requires DistinctIds(actions)
    ensures RowsAgree(Upserted(rows, run, actions), run, actions)
    decreases |actions|
  {
    if actions != [] {
      var next := rows[(run, actions[0].id) := actions[0]];
      UpsertedElsewhere(next, run, actions[1..], (run, actions[0].id));
      UpsertedAgree(next, run, actions[1..]);
      assert forall i :: 1 <= i < |actions| ==> actions[i] == actions[1..][i - 1];
    }
  }

  /** A saved plan is what a pass may start from: lawful actions, one id each, and the table agrees. */
  lemma PlanIsSound(rows: map<(RunId, ActionId), ActionView>, run: RunId, intent: Intent, everything: bool, s: Subject,
                    inputs: Inputs, decide: Params -> Verdict)
    requires Iterates(inputs) && Decides(decide)
    requires Candidates(intent, everything, s, inputs).Some? && TransferRevokes(s, inputs).Some?
    ensures var plan := PlanOf(Candidates(intent, everything, s, inputs).value, TransferRevokes(s, inputs).value, decide);
            AllLawful(plan) && DistinctIds(plan) && RowsAgree(Upserted(rows, run, plan), run, plan)
  {
    hide Candidates, TransferRevokes, PlanOf, Fits, Upserted, RowsAgree, DistinctIds;
    PlanFits(intent, everything, s, inputs, decide);
    var plan := PlanOf(Candidates(intent, everything, s, inputs).value, TransferRevokes(s, inputs).value, decide);
    forall i | 0 <= i < |plan| ensures Lawful(plan[i]) && plan[i].verdict.Some? {
      assert plan[i] in plan && WellFormed(decide(plan[i].params));
    }
    UpsertedAgree(rows, run, plan);
  }
}
