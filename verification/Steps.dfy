/** Runs of the protocol, step by step and one after another. */
module Steps {
  import opened Models
  import opened Protocol

  lemma {:induction false} RunConcat(w: World, a: seq<Step>, b: seq<Step>)
    ensures Run(w, a + b) == Run(Run(w, a), b)
    decreases |a|
  {
    hide Do;
    if a == [] {
      assert a + b == b;
    } else {
      assert (a + b)[0] == a[0] && (a + b)[1..] == a[1..] + b;
      RunConcat(Do(w, a[0]), a[1..], b);
    }
  }

  lemma OneStep(w: World, s: Step)
    ensures Run(w, [s]) == Do(w, s)
  {
    hide Do;
    assert [s][1..] == [];
    assert Run(Do(w, s), []) == Do(w, s);
  }

  lemma TwoSteps(w: World, s: Step, t: Step)
    ensures Run(w, [s, t]) == Do(Do(w, s), t)
  {
    hide Do;
    assert [s, t][1..] == [t];
    OneStep(Do(w, s), t);
  }

  lemma ThreeSteps(w: World, s: Step, t: Step, u: Step)
    ensures Run(w, [s, t, u]) == Do(Do(Do(w, s), t), u)
  {
    hide Do;
    assert [s, t, u][1..] == [t, u];
    TwoSteps(Do(w, s), t, u);
  }

  lemma ApplyPasses(w: World, p: nat)
    ensures var v := DoApplyDecisions(w, p);
            forall q :: q in v.passes && q != p ==> q in w.passes && v.passes[q] == w.passes[q]
  {
    hide RaisesOnDecision, AfterDecisions, DecidedIds, CanSync, Synced, Dispatched, AfterApprove;
    if p in w.passes && w.passes[p].pc == AtApprove && !RaisesOnDecision(w.approvals, w.passes[p].kase) {
      var c := AfterDecisions(w.approvals, w.passes[p].kase);
      if CanSync(w.rows, w.passes[p].run, c.actions, DecidedIds(w.approvals, w.passes[p].kase)) {
        assert DoApplyDecisions(w, p).passes == w.passes[p := AfterApprove(w.passes[p].run, c)];
      }
    }
  }

  lemma ApplyTables(w: World, p: nat)
    ensures var v := DoApplyDecisions(w, p);
            v.calls == w.calls && v.approvals == w.approvals && v.past.writes == w.past.writes
  {
    hide RaisesOnDecision, AfterDecisions, DecidedIds, CanSync, Synced, Dispatched, AfterApprove;
    if p in w.passes && w.passes[p].pc == AtApprove && !RaisesOnDecision(w.approvals, w.passes[p].kase) {
      var c := AfterDecisions(w.approvals, w.passes[p].kase);
      if CanSync(w.rows, w.passes[p].run, c.actions, DecidedIds(w.approvals, w.passes[p].kase)) {
        assert DoApplyDecisions(w, p).passes == w.passes[p := AfterApprove(w.passes[p].run, c)];
      }
    }
  }

  lemma ApplyDies(w: World, p: nat)
    requires p !in DoApplyDecisions(w, p).passes
    ensures var v := DoApplyDecisions(w, p); v.rows == w.rows && v.capsules == w.capsules
  {
    hide RaisesOnDecision, AfterDecisions, DecidedIds, CanSync, Synced, Dispatched, AfterApprove;
  }

  /** What Approve changes: its own pass, the saved case, the states in the table, the jobs and the audit. */
  lemma ApplyFrame(w: World, p: nat)
    ensures var v := DoApplyDecisions(w, p);
            && v.calls == w.calls && v.approvals == w.approvals && v.past.writes == w.past.writes
            && (forall q :: q in v.passes && q != p ==> q in w.passes && v.passes[q] == w.passes[q])
            && (p !in v.passes ==> v.rows == w.rows && v.capsules == w.capsules)
  {
    hide DoApplyDecisions;
    ApplyPasses(w, p);
    ApplyTables(w, p);
    if p !in DoApplyDecisions(w, p).passes {
      ApplyDies(w, p);
    }
  }

  lemma ApplySaves(w: World, p: nat)
    requires p in w.passes && w.passes[p].pc == AtApprove && p in DoApplyDecisions(w, p).passes
    ensures var v, run, c := DoApplyDecisions(w, p), w.passes[p].run, AfterDecisions(w.approvals, w.passes[p].kase);
            && v.passes[p].run == run && v.passes[p].kase == c && v.capsules == w.capsules[run := c]
            && v.rows == Synced(w.rows, run, c.actions, DecidedIds(w.approvals, w.passes[p].kase))
            && v.jobs == Dispatched(w.jobs, run, c.actions)
  {
    hide RaisesOnDecision, AfterDecisions, DecidedIds, CanSync, Synced, Dispatched;
  }

  lemma SaveFrame(w: World, p: nat, stage: Stage, pc: Pc)
    requires p in w.passes
    ensures var v, pass := DoSave(w, p, stage, pc), w.passes[p];
            && v.calls == w.calls && v.approvals == w.approvals && v.past.writes == w.past.writes
            && (forall q :: q in v.passes && q != p ==> q in w.passes && v.passes[q] == w.passes[q])
            && (p in v.passes ==>
                  && v.passes[p].kase == pass.kase && v.capsules == w.capsules[pass.run := pass.kase]
                  && v.rows == Synced(w.rows, pass.run, pass.kase.actions, pass.touched))
            && (p !in v.passes ==> v.rows == w.rows && v.capsules == w.capsules)
  {
    hide CanSync, Synced;
  }
}
