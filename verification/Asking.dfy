/** Who is asked: a dispatch job is enqueued once per run and action id, so a run that is started over may plan a held action
    that nobody is ever asked about. */
module Asking {
  import opened Models
  import opened Order
  import opened Connector
  import opened GovernPlan
  import opened Protocol
  import opened Steps
  import opened PassSpec
  import opened Rail
  import opened Refinement
  import ProtocolProofs

  /** A reachable world in which another job stands under the key never gets the job. */
  lemma TakenIsNeverAsked(ent: Body, gh: Body, steps: seq<Step>, more: seq<Step>, j: JobRow)
    requires var w := Protocol.Run(Init(ent, gh), steps); Taken(w.jobs, j) && j !in w.jobs
    ensures j !in Protocol.Run(Protocol.Run(Init(ent, gh), steps), more).jobs
  {
    hide Protocol.Run, Init;
    var w := Protocol.Run(Init(ent, gh), steps);
    var v := Protocol.Run(w, more);
    RunConcat(Init(ent, gh), steps, more);
    ProtocolProofs.Reached(ent, gh, steps + more);
    ProtocolProofs.JobsStay(w, more);
    var k :| k in w.jobs && SameKey(k, j);
    assert k in v.jobs;
    if j in v.jobs {
      OneUnderAKey(ent, gh, v, j, k);
    }
  }

  lemma OneUnderAKey(ent: Body, gh: Body, w: World, j: JobRow, k: JobRow)
    requires ProtocolProofs.Inv(ent, gh, w) && j in w.jobs && k in w.jobs && SameKey(k, j)
    ensures j == k
  {
    hide ProtocolProofs.RailInv, ProtocolProofs.DocsInv;
    assert ProtocolProofs.OneEach(w.jobs);
    var m :| 0 <= m < |w.jobs| && w.jobs[m] == j;
    var n :| 0 <= n < |w.jobs| && w.jobs[n] == k;
  }

  /** A continuation that asks the action's approver about the action's parameters. */
  ghost predicate AsksIn(w: World, run: RunId, a: ActionView, steps: seq<Step>) {
    AskFor(run, a) in Protocol.Run(w, steps).jobs
  }

  /** In every reachable world: when Approve has left an action waiting for a named person, that person is asked about its
      parameters, now or ever, exactly when the action's key was free before, or the job that stood under it already
      asked just this. */
  lemma AskedEverExactly(ent: Body, gh: Body, steps: seq<Step>, p: nat, i: nat)
    requires var w := Protocol.Run(Init(ent, gh), steps);
             var v := Do(w, ApplyDecisions(p));
             && p in w.passes && w.passes[p].pc == AtApprove && p in v.passes && w.passes[p].run == v.passes[p].run
             && DistinctIds(v.passes[p].kase.actions)
             && i < |v.passes[p].kase.actions| && Waits(v.passes[p].kase.actions[i])
    ensures var w := Protocol.Run(Init(ent, gh), steps);
            var v := Do(w, ApplyDecisions(p));
            var run, a := v.passes[p].run, v.passes[p].kase.actions[i];
            (exists more :: AsksIn(v, run, a, more)) <==> !Taken(w.jobs, AskFor(run, a)) || AskFor(run, a) in w.jobs
  {
    hide Protocol.Run, Init, Do, Taken, Waits;
    var w := Protocol.Run(Init(ent, gh), steps);
    var v := Do(w, ApplyDecisions(p));
    var run, a := v.passes[p].run, v.passes[p].kase.actions[i];
    ApproveEnqueues(w, p);
    AskedExactly(w.jobs, run, v.passes[p].kase.actions, i);
    if AskFor(run, a) in v.jobs {
      NothingMore(v);
      assert AsksIn(v, run, a, []);
    } else {
      OneStep(w, ApplyDecisions(p));
      forall more ensures !AsksIn(v, run, a, more) {
        RunConcat(w, [ApplyDecisions(p)], more);
        TakenIsNeverAsked(ent, gh, steps, [ApplyDecisions(p)] + more, AskFor(run, a));
      }
    }
  }

  lemma NothingMore(w: World)
    ensures Protocol.Run(w, []) == w
  {
  }

  lemma ApproveEnqueues(w: World, p: nat)
    requires p in w.passes && w.passes[p].pc == AtApprove
    ensures var v := Do(w, ApplyDecisions(p));
            p in v.passes ==> v.jobs == Dispatched(w.jobs, v.passes[p].run, v.passes[p].kase.actions)
  {
    hide DoApplyDecisions, AfterDecisions, DecidedIds, Synced, Dispatched;
    if p in Do(w, ApplyDecisions(p)).passes {
      ApplySaves(w, p);
    }
  }

  // --- how it comes about ---------------------------------------------------------------------------------------

  predicate Named(x: Person) { x != "" && !Unresolved(Some(x)) }

  function HeldFor(x: Person): Verdict { Verdict(HOLD, "POL-TEAM-001", "An approver decides.", Some(x), false) }

  function HeldAction(params: Params, x: Person): ActionView { Stamped("A01", params, HeldFor(x)) }

  const SUBJECT: Subject := Subject("subject", "", "", "", [])

  function AskSteps(p: nat, params: Params, x: Person): seq<Step> {
    PlanningSteps(0, p, SUBJECT, [], [Candidate("A01", params, HeldFor(x))], []) + [ApplyDecisions(p)]
  }

  /** A plan of one action. */
  lemma OnePlanned(rows: map<(RunId, ActionId), ActionView>, c: Candidate)
    ensures var a := Stamped(c.id, c.params, c.verdict);
            && StampAll([c]) == [a] && StampAll([]) == [] && SortBy([a] + [], PlanKey) == [a]
            && Upserted(rows, 0, [a]) == rows[(0, c.id) := a] && Upserted(Upserted(rows, 0, [a]), 0, [a]) == rows[(0, c.id) := a]
  {
    var a := Stamped(c.id, c.params, c.verdict);
    assert StampAll([c][1..]) == [] && [a] + [] == [a] && [a][1..] == [];
    assert rows[(0, c.id) := a][(0, c.id) := a] == rows[(0, c.id) := a];
    SortByPermutes([a], PlanKey);
    assert |SortBy([a], PlanKey)| == 1;
    assert SortBy([a], PlanKey)[0] in multiset([a]);
  }

  /** A pass plans one held action, and asks for it if nobody was asked under its id before. */
  lemma PlansAndAsks(w: World, params: Params, x: Person)
    requires 0 in w.runs && Named(x) && (0, "A01") !in w.approvals
    ensures var a := HeldAction(params, x);
            var v := Protocol.Run(w, AskSteps(w.nextPass, params, x));
            && 0 in v.runs && v.approvals == w.approvals && v.jobs == Enqueue(w.jobs, AskFor(0, a))
            && (0, "A01") in v.rows && v.rows[(0, "A01")] == a
            && w.nextPass in v.passes && v.passes[w.nextPass].kase == Case(0, [a], [])
  {
    hide Do, Enqueue, RowsAgree;
    var a, p := HeldAction(params, x), w.nextPass;
    var cs := [Candidate("A01", params, HeldFor(x))];
    OnePlanned(w.rows, cs[0]);
    PlanIsARun(w, 0, SUBJECT, [], cs, []);
    var first := PlanningSteps(0, p, SUBJECT, [], cs, []);
    var u := Protocol.Run(w, first);
    var c := Case(0, [a], []);
    assert RowsAgree(u.rows, 0, [a]) by { OneAgrees(u.rows, a); }
    ApproveSteps(u, p, 0, c);
    NothingDecided(u.approvals, a);
    OneStep(u, ApplyDecisions(p));
    RunConcat(w, first, [ApplyDecisions(p)]);
    OneDispatched(u.jobs, a);
    OneAgreed(Do(u, ApplyDecisions(p)).rows, a);
  }

  lemma OneAgrees(rows: map<(RunId, ActionId), ActionView>, a: ActionView)
    requires (0, a.id) in rows && rows[(0, a.id)] == a
    ensures RowsAgree(rows, 0, [a])
  {
  }

  lemma OneAgreed(rows: map<(RunId, ActionId), ActionView>, a: ActionView)
    requires RowsAgree(rows, 0, [a])
    ensures (0, a.id) in rows && rows[(0, a.id)] == a
  {
    assert [a][0] == a;
  }

  lemma NothingDecided(approvals: map<(RunId, ActionId), Approval>, a: ActionView)
    requires (0, a.id) !in approvals && Waits(a)
    ensures AfterDecisions(approvals, Case(0, [a], [])) == Case(0, [a], [])
  {
    assert [a][0] == a && [a][1..] == [];
    assert WithDecisions(approvals, 0, [a]) == [a];
    assert NewBlockers([a]) == NewBlockers([]) == [];
  }

  lemma OneDispatched(jobs: seq<JobRow>, a: ActionView)
    requires Waits(a)
    ensures Dispatched(jobs, 0, [a]) == Enqueue(jobs, AskFor(0, a))
  {
    hide Enqueue;
    assert [a][1..] == [];
  }

  /** For any two people and parameters that are not both the same, some run asks the first about the first, crashes, and when
      it is started over holds the same id for the second: the action waits, nothing blocks the run, and nothing that can
      happen ever enqueues a job that asks about it. */
  lemma UnaskedArises(ent: Body, gh: Body, p: Params, x: Person, q: Params, y: Person) returns (steps: seq<Step>)
    requires Named(x) && Named(y) && (p, x) != (q, y)
    ensures var w := Protocol.Run(Init(ent, gh), steps);
            && (0, "A01") in w.rows && w.rows[(0, "A01")] == HeldAction(q, y) && (0, "A01") !in w.approvals
            && AskFor(0, HeldAction(p, x)) in w.jobs
            && (exists n :: n in w.passes && w.passes[n].kase == Case(0, [HeldAction(q, y)], []))
            && forall more :: !AsksIn(w, 0, HeldAction(q, y), more)
  {
    hide Do, Protocol.Run, AskSteps, Init, HeldAction;
    var create := CreateRun(0, Some("requester"));
    var w0, w1 := Init(ent, gh), Do(Init(ent, gh), create);
    Created(ent, gh);
    OneStep(w0, create);
    PlansAndAsks(w1, p, x);
    var first := AskSteps(w1.nextPass, p, x);
    var w2 := Protocol.Run(w1, first);
    var crash := CrashPass(w1.nextPass);
    var w3 := Do(w2, crash);
    OneStep(w2, crash);
    Crashed(w2, w1.nextPass);
    PlansAndAsks(w3, q, y);
    var again := AskSteps(w3.nextPass, q, y);
    steps := [create] + (first + ([crash] + again));
    RunConcat(w2, [crash], again);
    RunConcat(w1, first, [crash] + again);
    RunConcat(w0, [create], first + ([crash] + again));
    AnotherStands(p, x, q, y);
    assert w3.nextPass in Protocol.Run(w3, again).passes;
    forall more ensures !AsksIn(Protocol.Run(w0, steps), 0, HeldAction(q, y), more) {
      TakenIsNeverAsked(ent, gh, steps, more, AskFor(0, HeldAction(q, y)));
    }
  }

  lemma Created(ent: Body, gh: Body)
    ensures var v := Do(Init(ent, gh), CreateRun(0, Some("requester")));
            0 in v.runs && v.approvals == map[] && v.jobs == []
  {
  }

  lemma Crashed(w: World, p: nat)
    ensures var v := Do(w, CrashPass(p)); v.runs == w.runs && v.approvals == w.approvals && v.jobs == w.jobs
  {
  }

  /** The first job takes the key of the second. */
  lemma AnotherStands(p: Params, x: Person, q: Params, y: Person)
    requires (p, x) != (q, y)
    ensures var j, k := AskFor(0, HeldAction(p, x)), AskFor(0, HeldAction(q, y));
            && j != k && Enqueue(Enqueue([], j), k) == [j] && Taken([j], k)
  {
    var j, k := AskFor(0, HeldAction(p, x)), AskFor(0, HeldAction(q, y));
    assert Enqueue([], j) == [j];
    assert j in [j] && SameKey(j, k);
  }
}
