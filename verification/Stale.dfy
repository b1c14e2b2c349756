/** One decision per run and action id, and what it costs when a run that stopped in `running` is started over and plans
    another action under the same id. */
module Stale {
  import opened Models
  import opened Connector
  import opened Protocol
  import opened Steps
  import opened Refinement
  import ProtocolProofs

  /** The action stands in the table, awaits a named approver, and that person may decide it. */
  ghost predicate Decidable(w: World, run: RunId, a: ActionView, who: Person) {
    && run in w.runs && (run, a.id) in w.rows && w.rows[(run, a.id)] == a
    && a.state == Awaiting && a.approver == Some(who) && Separate(w.runs[run], who)
  }

  /** A continuation after which a decision counts for the action. */
  ghost predicate Reaches(w: World, run: RunId, a: ActionView, steps: seq<Step>) {
    Counts(Run(w, steps).approvals, run, a)
  }

  /** The approver uses a door. */
  lemma DecisionLands(w: World, run: RunId, a: ActionView, who: Person, channel: string, d: Decision) returns (steps: seq<Step>)
    requires Decidable(w, run, a, who) && (run, a.id) !in w.approvals
    ensures var v := Run(w, steps);
            && Reaches(w, run, a, steps) && v.approvals[(run, a.id)].decision == d
            && v.approvals[(run, a.id)].approver == who && v.runs == w.runs && v.rows == w.rows
  {
    var call := Call(run, a.id, a.params, channel, who, d, Asked);
    CallDecides(w, call);
    steps := DecideSteps(call, w.nextCall);
  }

  /** An action that awaits a person who may decide it can still be decided exactly when its id has no decision yet, or one
      for these very parameters. */
  lemma DecidableExactly(w: World, run: RunId, a: ActionView, who: Person)
    requires Decidable(w, run, a, who)
    ensures (exists steps :: Reaches(w, run, a, steps)) <==>
            (run, a.id) !in w.approvals || w.approvals[(run, a.id)].params == a.params
  {
    var k := (run, a.id);
    if k !in w.approvals {
      var steps := DecisionLands(w, run, a, who, "console", Decision.Approve);
      assert Reaches(w, run, a, steps);
    } else if w.approvals[k].params == a.params {
      assert Reaches(w, run, a, []);
    } else {
      forall steps ensures !Reaches(w, run, a, steps) {
        ProtocolProofs.DecisionsStay(w, steps, k);
      }
    }
  }

  /** After an id was decided every later call about it, for whatever parameters, commits nothing and is told of that
      decision. */
  lemma LateCallsAreTold(w: World, steps: seq<Step>, k: (RunId, ActionId), c: nat)
    requires k in w.approvals
    requires var v := Run(w, steps); c in v.calls && (v.calls[c].run, v.calls[c].action) == k
    ensures var v := Run(w, steps);
            && (v.calls[c].phase.Cleared? ==> Do(v, CommitDecision(c)).approvals == v.approvals)
            && (v.calls[c].phase.SawAction? ==>
                  var d := w.approvals[k];
                  Do(v, ReadApproval(c)).answers == v.answers + [Answer(c, k.0, k.1, AlreadyDecided(d.approver, d.channel))])
  {
    hide MayDecide, DoDiscover, DoCompile, DoGovern, DoPlan, DoHandOver, DoApplyDecisions, DoWrite, DoReconcile, DoSave, DoCheck,
         DoFinish, DoReadAction, DoTell, Reject;
    ProtocolProofs.DecisionsStay(w, steps, k);
  }

  const HELD: Verdict := Verdict(HOLD, "POL-TEAM-001", "An approver decides.", Some("approver"), false)

  /** A run is raised, planned, and its one held action decided. */
  lemma PlannedAndDecided(ent: Body, gh: Body, p: Params, d: Decision) returns (steps: seq<Step>)
    ensures var w := Run(Init(ent, gh), steps);
            && 0 in w.runs && w.runs[0] == RunInfo(Some("requester"), Some("subject"))
            && (0, "A01") in w.approvals && w.approvals[(0, "A01")].params == p && w.approvals[(0, "A01")].decision == d
  {
    hide GoverningSteps;
    var w0, create := Init(ent, gh), CreateRun(0, Some("requester"));
    var w1 := Do(w0, create);
    OneStep(w0, create);
    var cs := [Candidate("A01", p, HELD)];
    GovernIsARun(w1, 0, Some("subject"), [], cs);
    var plan := GoverningSteps(0, w1.nextPass, Some("subject"), [], cs);
    var w2 := Run(w1, plan);
    var a := Stamped("A01", p, HELD);
    OneRow(w1.rows, 0, cs[0]);
    var more := DecisionLands(w2, 0, a, "approver", "console", d);
    RunConcat(w1, plan, more);
    RunConcat(w0, [create], plan + more);
    steps := [create] + (plan + more);
  }

  lemma OneRow(rows: map<(RunId, ActionId), ActionView>, run: RunId, c: Candidate)
    ensures StampAll([c]) == [Stamped(c.id, c.params, c.verdict)]
    ensures Upserted(rows, run, StampAll([c])) == rows[(run, c.id) := Stamped(c.id, c.params, c.verdict)]
  {
    assert StampAll([c][1..]) == [];
    assert [Stamped(c.id, c.params, c.verdict)][1..] == [];
  }

  /** It happens: for any two different parameters and any decision there is a run whose action was decided with the
      first, and which after a restart awaits, under the same id, with the second. Nothing that can happen then decides
      it. */
  lemma StaleDecisionArises(ent: Body, gh: Body, p: Params, q: Params, d: Decision) returns (steps: seq<Step>)
    requires p != q
    ensures var w := Run(Init(ent, gh), steps);
            var a := Stamped("A01", q, HELD);
            && Decidable(w, 0, a, "approver")
            && (0, "A01") in w.approvals && w.approvals[(0, "A01")].params == p && w.approvals[(0, "A01")].decision == d
            && forall more :: !Reaches(w, 0, a, more)
  {
    hide GoverningSteps, Reaches;
    var first := PlannedAndDecided(ent, gh, p, d);
    var w1 := Run(Init(ent, gh), first);
    var cs := [Candidate("A01", q, HELD)];
    GovernIsARun(w1, 0, Some("subject"), [], cs);
    var again := GoverningSteps(0, w1.nextPass, Some("subject"), [], cs);
    OneRow(w1.rows, 0, cs[0]);
    RunConcat(Init(ent, gh), first, again);
    steps := first + again;
    DecidableExactly(Run(w1, again), 0, Stamped("A01", q, HELD), "approver");
  }
}
