/** Whose approval a write carries. A decision counts for the parameters it was given for, not for the approver the action
    names by then. */
module Naming {
  import opened Models
  import opened Order
  import opened Connector
  import opened Execute
  import opened Protocol
  import opened Steps
  import opened Rail
  import opened Refinement
  import opened Asking
  import ProtocolProofs

  /** An action under the id names somebody of `names` if it names anybody, and does if it is held. */
  ghost predicate In(names: set<Person>, id: ActionId, a: ActionView) {
    a.id == id ==> (a.verdict == Some(HOLD) ==> a.approver.Some?) && (a.approver.Some? ==> a.approver.value in names)
  }

  ghost predicate AllIn(names: set<Person>, id: ActionId, actions: seq<ActionView>) {
    forall i :: 0 <= i < |actions| ==> In(names, id, actions[i])
  }

  ghost predicate WriteIn(names: set<Person>, id: ActionId, r: WriteRecord) {
    r.key.action == id && r.verdict == Some(HOLD) ==> r.approver.Some? && r.approver.value in names
  }

  ghost predicate RowIn(names: set<Person>, id: ActionId, k: (RunId, ActionId), a: ActionView) {
    a.id == k.1 && In(names, id, a)
  }

  ghost predicate CallIn(names: set<Person>, id: ActionId, call: Call) {
    match call.phase
    case SawAction(_, row) => RowIn(names, id, (call.run, call.action), row)
    case Cleared(_, row) => RowIn(names, id, (call.run, call.action), row)
    case _ => true
  }

  ghost predicate NamedIn(names: set<Person>, id: ActionId, w: World) {
    && (forall p :: p in w.passes ==> AllIn(names, id, w.passes[p].kase.actions))
    && (forall run :: run in w.capsules ==> AllIn(names, id, w.capsules[run].actions))
    && (forall k :: k in w.rows ==> RowIn(names, id, k, w.rows[k]))
    && (forall c :: c in w.calls ==> CallIn(names, id, w.calls[c]))
    && (forall k :: k in w.approvals ==> RowIn(names, id, k, w.approvals[k].row))
    && (forall i :: 0 <= i < |w.past.writes| ==> WriteIn(names, id, w.past.writes[i]))
  }

  /** Whatever plans the id anew names one of `names` for it. */
  predicate Offers(names: set<Person>, id: ActionId, cs: seq<Candidate>) {
    forall i :: 0 <= i < |cs| && cs[i].id == id && cs[i].verdict.approver.Some? ==> cs[i].verdict.approver.value in names
  }

  predicate Offered(names: set<Person>, id: ActionId, s: Step) {
    match s
    case GovernCase(_, cs) => Offers(names, id, cs)
    case PlanCase(_, cs) => Offers(names, id, cs)
    case _ => true
  }

  // --- every step keeps it --------------------------------------------------------------------------------------

  /** A rail step: pass p and saved cases may change, rows and writes be added, all within `names`. */
  lemma RailStep(names: set<Person>, id: ActionId, w: World, v: World, p: nat)
    requires NamedIn(names, id, w) && v.calls == w.calls && v.approvals == w.approvals
    requires forall q :: q in v.passes && q != p ==> q in w.passes && v.passes[q] == w.passes[q]
    requires p in v.passes ==> AllIn(names, id, v.passes[p].kase.actions)
    requires forall r :: r in v.capsules ==> (r in w.capsules && v.capsules[r] == w.capsules[r]) || AllIn(names, id, v.capsules[r].actions)
    requires forall k :: k in v.rows ==> RowIn(names, id, k, v.rows[k])
    requires v.past.writes == w.past.writes || exists r :: WriteIn(names, id, r) && v.past.writes == w.past.writes + [r]
    ensures NamedIn(names, id, v)
  {
    hide AllIn, RowIn, CallIn, WriteIn;
  }

  lemma {:induction false} StampsIn(names: set<Person>, id: ActionId, cs: seq<Candidate>)
    requires Offers(names, id, cs) && forall i :: 0 <= i < |cs| ==> WellFormed(cs[i].verdict)
    ensures AllIn(names, id, StampAll(cs))
  {
    if cs != [] {
      assert forall i :: 0 <= i < |cs[1..]| ==> cs[1..][i] == cs[i + 1];
      StampsIn(names, id, cs[1..]);
    }
  }

  lemma {:induction false} UpsertsIn(names: set<Person>, id: ActionId, rows: map<(RunId, ActionId), ActionView>, run: RunId,
                                     actions: seq<ActionView>)
    requires AllIn(names, id, actions) && forall k :: k in rows ==> RowIn(names, id, k, rows[k])
    ensures forall k :: k in Upserted(rows, run, actions) ==> RowIn(names, id, k, Upserted(rows, run, actions)[k])
    decreases |actions|
  {
    hide In;
    if actions != [] {
      assert forall i :: 0 <= i < |actions[1..]| ==> actions[1..][i] == actions[i + 1];
      UpsertsIn(names, id, rows[(run, actions[0].id) := actions[0]], run, actions[1..]);
    }
  }

  lemma {:induction false} SyncsIn(names: set<Person>, id: ActionId, rows: map<(RunId, ActionId), ActionView>, run: RunId,
                                   actions: seq<ActionView>, ids: set<ActionId>)
    requires forall k :: k in rows ==> RowIn(names, id, k, rows[k])
    ensures forall k :: k in Synced(rows, run, actions, ids) ==> RowIn(names, id, k, Synced(rows, run, actions, ids)[k])
    decreases |actions|
  {
    if actions != [] {
      var k := (run, actions[0].id);
      SyncsIn(names, id, if actions[0].id in ids && k in rows then rows[k := rows[k].(state := actions[0].state)] else rows,
              run, actions[1..], ids);
    }
  }

  /** The parts of the invariant that a step of pass p works from. */
  lemma PassIn(names: set<Person>, id: ActionId, w: World, p: nat)
    requires NamedIn(names, id, w) && p in w.passes
    ensures AllIn(names, id, w.passes[p].kase.actions)
    ensures forall k :: k in w.rows ==> RowIn(names, id, k, w.rows[k])
    ensures forall i :: 0 <= i < |w.passes[p].kase.actions| ==> In(names, id, w.passes[p].kase.actions[i])
  {
  }

  lemma RowsIn(names: set<Person>, id: ActionId, w: World)
    requires NamedIn(names, id, w)
    ensures forall k :: k in w.rows ==> RowIn(names, id, k, w.rows[k])
    ensures forall run :: run in w.capsules ==> AllIn(names, id, w.capsules[run].actions)
  {
  }

  lemma NothingIn(names: set<Person>, id: ActionId)
    ensures AllIn(names, id, [])
  {
  }

  lemma BeginsIn(names: set<Person>, id: ActionId, w: World, run: RunId, pc: Pc)
    requires NamedIn(names, id, w)
    ensures NamedIn(names, id, NewPass(w, run, pc))
  {
    hide RowIn, CallIn, WriteIn, In, AllIn, NamedIn;
    RowsIn(names, id, w);
    NothingIn(names, id);
    RailStep(names, id, w, NewPass(w, run, pc), w.nextPass);
  }

  /** Runs and documents are not in it. */
  lemma StaysIn(names: set<Person>, id: ActionId, w: World, v: World)
    requires NamedIn(names, id, w) && v == w.(runs := v.runs, docs := v.docs)
    ensures NamedIn(names, id, v)
  {
    hide AllIn, RowIn, CallIn, WriteIn;
  }

  lemma CreatesIn(names: set<Person>, id: ActionId, w: World, run: RunId, requester: Option<Person>)
    requires NamedIn(names, id, w)
    ensures NamedIn(names, id, DoCreate(w, run, requester))
  {
    hide NamedIn;
    StaysIn(names, id, w, DoCreate(w, run, requester));
  }

  lemma CrashesIn(names: set<Person>, id: ActionId, w: World, p: nat)
    requires NamedIn(names, id, w)
    ensures NamedIn(names, id, Kill(w, p))
  {
    hide RowIn, CallIn, WriteIn, In, AllIn, NamedIn;
    RowsIn(names, id, w);
    RailStep(names, id, w, Kill(w, p), p);
  }

  lemma DiscoversIn(names: set<Person>, id: ActionId, w: World, p: nat, who: Option<Person>)
    requires NamedIn(names, id, w)
    ensures NamedIn(names, id, DoDiscover(w, p, who))
  {
    hide RowIn, CallIn, WriteIn, In, AllIn, NamedIn;
    if p in w.passes {
      RowsIn(names, id, w);
      PassIn(names, id, w, p);
      RailStep(names, id, w, DoDiscover(w, p, who), p);
    }
  }

  lemma CompilesIn(names: set<Person>, id: ActionId, w: World, p: nat, blockers: seq<string>)
    requires NamedIn(names, id, w)
    ensures NamedIn(names, id, DoCompile(w, p, blockers))
  {
    hide RowIn, CallIn, WriteIn, In, AllIn, NamedIn;
    if p in w.passes {
      RowsIn(names, id, w);
      PassIn(names, id, w, p);
      NothingIn(names, id);
      RailStep(names, id, w, DoCompile(w, p, blockers), p);
    }
  }

  lemma GovernsIn(names: set<Person>, id: ActionId, w: World, p: nat, cs: seq<Candidate>)
    requires NamedIn(names, id, w) && Offers(names, id, cs)
    ensures NamedIn(names, id, DoGovern(w, p, cs))
  {
    hide RowIn, CallIn, WriteIn, In, NamedIn, StampAll, Upserted, AllIn, WellFormed;
    var v := DoGovern(w, p, cs);
    if v != w {
      PassIn(names, id, w, p);
      StampsIn(names, id, cs);
      UpsertsIn(names, id, w.rows, w.passes[p].run, StampAll(cs));
      RailStep(names, id, w, v, p);
    }
  }

  lemma SortsIn(names: set<Person>, id: ActionId, actions: seq<ActionView>)
    requires AllIn(names, id, actions)
    ensures AllIn(names, id, SortBy(actions, PlanKey))
  {
    hide In, SortBy;
    SortByPermutes(actions, PlanKey);
    var r := SortBy(actions, PlanKey);
    forall i | 0 <= i < |r| ensures In(names, id, r[i]) {
      assert r[i] in multiset(actions);
    }
  }

  lemma PlansIn(names: set<Person>, id: ActionId, w: World, p: nat, cs: seq<Candidate>)
    requires NamedIn(names, id, w) && Offers(names, id, cs)
    ensures NamedIn(names, id, DoPlan(w, p, cs))
  {
    hide RowIn, CallIn, WriteIn, In, NamedIn, StampAll, Upserted, SortBy, PlanKey, WellFormed;
    var v := DoPlan(w, p, cs);
    if v != w {
      PassIn(names, id, w, p);
      StampsIn(names, id, cs);
      var all := w.passes[p].kase.actions + StampAll(cs);
      assert AllIn(names, id, all);
      SortsIn(names, id, all);
      UpsertsIn(names, id, w.rows, w.passes[p].run, SortBy(all, PlanKey));
      RailStep(names, id, w, v, p);
    }
  }

  lemma HandsOverIn(names: set<Person>, id: ActionId, w: World, p: nat)
    requires NamedIn(names, id, w)
    ensures NamedIn(names, id, DoHandOver(w, p))
  {
    hide RowIn, CallIn, WriteIn, In, AllIn, NamedIn;
    if p in w.passes {
      RowsIn(names, id, w);
      PassIn(names, id, w, p);
      RailStep(names, id, w, DoHandOver(w, p), p);
    }
  }

  lemma FinishesIn(names: set<Person>, id: ActionId, w: World, p: nat)
    requires NamedIn(names, id, w)
    ensures NamedIn(names, id, DoFinish(w, p))
  {
    hide RowIn, CallIn, WriteIn, In, AllIn, NamedIn, ReceiptOf, Enqueue;
    if p in w.passes {
      RowsIn(names, id, w);
      PassIn(names, id, w, p);
      RailStep(names, id, w, DoFinish(w, p), p);
    }
  }

  lemma DecidesIn(names: set<Person>, id: ActionId, w: World, p: nat)
    requires NamedIn(names, id, w)
    ensures NamedIn(names, id, DoApplyDecisions(w, p))
  {
    hide RowIn, CallIn, WriteIn, In, NamedIn, Dispatched, Synced, DoApplyDecisions, DecidedIds, AfterDecisions, AllIn;
    if p in w.passes && w.passes[p].pc == AtApprove {
      var c := w.passes[p].kase;
      ApplyFrame(w, p);
      if p in DoApplyDecisions(w, p).passes {
        ApplySaves(w, p);
      }
      RowsIn(names, id, w);
      PassIn(names, id, w, p);
      DecidedIn(names, id, w.approvals, c);
      var after := AfterDecisions(w.approvals, c);
      SyncsIn(names, id, w.rows, w.passes[p].run, after.actions, DecidedIds(w.approvals, c));
      RailStep(names, id, w, DoApplyDecisions(w, p), p);
    } else {
      assert DoApplyDecisions(w, p) == w by { NothingApplied(w, p); }
    }
  }

  lemma NothingApplied(w: World, p: nat)
    requires !(p in w.passes && w.passes[p].pc == AtApprove)
    ensures DoApplyDecisions(w, p) == w
  {
  }

  lemma DecidedIn(names: set<Person>, id: ActionId, approvals: map<(RunId, ActionId), Approval>, c: Case)
    requires AllIn(names, id, c.actions)
    ensures AllIn(names, id, AfterDecisions(approvals, c).actions)
  {
    hide Merged, NewBlockers;
    assert forall i :: 0 <= i < |c.actions| ==> In(names, id, c.actions[i]);
  }

  lemma SavesIn(names: set<Person>, id: ActionId, w: World, p: nat, stage: Stage, pc: Pc)
    requires NamedIn(names, id, w) && p in w.passes
    ensures NamedIn(names, id, DoSave(w, p, stage, pc))
  {
    hide RowIn, CallIn, WriteIn, In, NamedIn, Synced, DoSave, AllIn;
    SaveFrame(w, p, stage, pc);
    RowsIn(names, id, w);
    PassIn(names, id, w, p);
    SyncsIn(names, id, w.rows, w.passes[p].run, w.passes[p].kase.actions, w.passes[p].touched);
    RailStep(names, id, w, DoSave(w, p, stage, pc), p);
  }

  /** A step of pass p that touches no table: its actions change states only, and a write may be issued. */
  lemma WorksIn(names: set<Person>, id: ActionId, w: World, v: World, p: nat)
    requires NamedIn(names, id, w) && p in w.passes
    requires v.calls == w.calls && v.approvals == w.approvals && v.rows == w.rows && v.capsules == w.capsules
    requires forall q :: q in v.passes && q != p ==> q in w.passes && v.passes[q] == w.passes[q]
    requires p in v.passes ==>
               && |v.passes[p].kase.actions| == |w.passes[p].kase.actions|
               && forall i :: 0 <= i < |w.passes[p].kase.actions| ==>
                    v.passes[p].kase.actions[i] == w.passes[p].kase.actions[i].(state := v.passes[p].kase.actions[i].state)
    requires v.past.writes == w.past.writes || exists r :: WriteIn(names, id, r) && v.past.writes == w.past.writes + [r]
    ensures NamedIn(names, id, v)
  {
    hide RowIn, CallIn, WriteIn, NamedIn;
    PassIn(names, id, w, p);
    if p in v.passes {
      forall i | 0 <= i < |v.passes[p].kase.actions| ensures In(names, id, v.passes[p].kase.actions[i]) {
        assert In(names, id, w.passes[p].kase.actions[i]);
      }
    }
    RailStep(names, id, w, v, p);
  }

  lemma AdvancesIn(names: set<Person>, id: ActionId, w: World, w1: World, p: nat, i: nat, to: ActionState, pc: Pc)
    requires NamedIn(names, id, w) && p in w.passes && i < |w.passes[p].kase.actions|
    requires w1.calls == w.calls && w1.approvals == w.approvals && w1.rows == w.rows && w1.capsules == w.capsules
    requires w1.passes == w.passes
    requires w1.past.writes == w.past.writes || exists r :: WriteIn(names, id, r) && w1.past.writes == w.past.writes + [r]
    ensures NamedIn(names, id, Advance(w1, p, i, to, pc))
  {
    hide WriteIn, NamedIn, CanMove;
    WorksIn(names, id, w, Advance(w1, p, i, to, pc), p);
  }

  lemma MovesOnIn(names: set<Person>, id: ActionId, w: World, w1: World, p: nat, pc: Pc)
    requires NamedIn(names, id, w) && p in w.passes
    requires w1.calls == w.calls && w1.approvals == w.approvals && w1.rows == w.rows && w1.capsules == w.capsules
    requires w1.passes == w.passes
    requires w1.past.writes == w.past.writes || exists r :: WriteIn(names, id, r) && w1.past.writes == w.past.writes + [r]
    ensures NamedIn(names, id, Put(w1, p, w.passes[p].(pc := pc)))
  {
    hide WriteIn, NamedIn;
    WorksIn(names, id, w, Put(w1, p, w.passes[p].(pc := pc)), p);
  }

  /** A connector access leaves the tables, the calls and the passes alone. */
  lemma AccessIs(w: World, p: nat, r: WriteRecord, readable: bool)
    ensures var v := Issue(w, r).0;
            v.calls == w.calls && v.approvals == w.approvals && v.rows == w.rows && v.capsules == w.capsules && v.passes == w.passes &&
            v.past.writes == w.past.writes + [r]
    ensures var v := Look(w, r.key, readable).0;
            v.calls == w.calls && v.approvals == w.approvals && v.rows == w.rows && v.capsules == w.capsules && v.passes == w.passes &&
            v.past.writes == w.past.writes
    ensures var v := Judge(w, p, r.key, readable).0;
            v.calls == w.calls && v.approvals == w.approvals && v.rows == w.rows && v.capsules == w.capsules && v.passes == w.passes &&
            v.past.writes == w.past.writes
  {
    hide Connector.Write, ReadBack, DocOf, WithDoc;
  }

  function RecordOf(pass: Pass, i: nat): WriteRecord
    requires i < |pass.kase.actions|
  {
    var a := pass.kase.actions[i];
    WriteRecord(Key(pass.run, a.id, a.params), a.verdict, a.approver, pass.kase.blockers)
  }

  lemma WritesIn(names: set<Person>, id: ActionId, w: World, p: nat)
    requires NamedIn(names, id, w)
    ensures NamedIn(names, id, DoWrite(w, p))
  {
    hide NamedIn, Issue, Advance, Put, IsExecutable, CanMove;
    if p in w.passes && w.passes[p].pc.Writing? {
      var pass := w.passes[p];
      var i, attempt := pass.pc.i, pass.pc.attempt;
      if i < |pass.kase.actions| && IsExecutable(pass.kase.actions[i]) {
        var r := RecordOf(pass, i);
        PassIn(names, id, w, p);
        assert In(names, id, pass.kase.actions[i]) && WriteIn(names, id, r);
        AccessIs(w, p, r, true);
        var (w1, out) := Issue(w, r);
        match AfterWrite(out, attempt, MAX_ATTEMPTS) {
          case Finish(to) => AdvancesIn(names, id, w, w1, p, i, to, Writing(i + 1, 1));
          case Retry => MovesOnIn(names, id, w, w1, p, Writing(i, attempt + 1));
          case Reconcile => MovesOnIn(names, id, w, w1, p, Reconciling(i, attempt));
        }
      } else {
        MovesOnIn(names, id, w, w, p, AllWritten);
        MovesOnIn(names, id, w, w, p, Writing(i + 1, 1));
      }
    }
  }

  lemma ReconcilesIn(names: set<Person>, id: ActionId, w: World, p: nat, readable: bool)
    requires NamedIn(names, id, w)
    ensures NamedIn(names, id, DoReconcile(w, p, readable))
  {
    hide NamedIn, Look, Advance, Put, CanMove;
    if p in w.passes && w.passes[p].pc.Reconciling? && w.passes[p].pc.i < |w.passes[p].kase.actions| {
      var pass := w.passes[p];
      var i, attempt := pass.pc.i, pass.pc.attempt;
      AccessIs(w, p, RecordOf(pass, i), readable);
      var (w1, r) := Look(w, RecordOf(pass, i).key, readable);
      MovesOnIn(names, id, w, w1, p, Writing(i, attempt + 1));
      if AfterReadback(r, attempt, MAX_ATTEMPTS).Finish? {
        AdvancesIn(names, id, w, w1, p, i, AfterReadback(r, attempt, MAX_ATTEMPTS).state, Writing(i + 1, 1));
      }
    }
  }

  lemma ChecksIn(names: set<Person>, id: ActionId, w: World, p: nat, readable: bool)
    requires NamedIn(names, id, w)
    ensures NamedIn(names, id, DoCheck(w, p, readable))
  {
    hide NamedIn, Judge, Advance, Put, CanMove, DoSave, Verifiable;
    if p in w.passes && w.passes[p].pc.Checking? {
      var pass := w.passes[p];
      var i := pass.pc.i;
      SavesIn(names, id, w, p, Stage.Verify, AllChecked);
      MovesOnIn(names, id, w, w, p, Checking(i + 1));
      if i < |pass.kase.actions| {
        AccessIs(w, p, RecordOf(pass, i), readable);
        var (w1, r) := Judge(w, p, RecordOf(pass, i).key, readable);
        AdvancesIn(names, id, w, w1, p, i, VerifiedState(r), Checking(i + 1));
      }
    }
  }

  /** A door step: one call comes, goes on or ends, or wins. */
  lemma DoorStep(names: set<Person>, id: ActionId, w: World, v: World)
    requires NamedIn(names, id, w)
    requires v.passes == w.passes && v.capsules == w.capsules && v.rows == w.rows && v.past == w.past
    requires forall c :: c in v.calls ==> (c in w.calls && v.calls[c] == w.calls[c]) || CallIn(names, id, v.calls[c])
    requires forall k :: k in v.approvals ==> (k in w.approvals && v.approvals[k] == w.approvals[k]) || RowIn(names, id, k, v.approvals[k].row)
    ensures NamedIn(names, id, v)
  {
    hide AllIn, RowIn, CallIn, WriteIn;
  }

  lemma CallAt(names: set<Person>, id: ActionId, w: World, c: nat)
    requires NamedIn(names, id, w) && c in w.calls
    ensures CallIn(names, id, w.calls[c])
    ensures forall k :: k in w.rows ==> RowIn(names, id, k, w.rows[k])
  {
  }

  lemma CallsIn(names: set<Person>, id: ActionId, w: World, s: Step)
    requires NamedIn(names, id, w) && (s.Ask? || s.CrashCall?)
    ensures NamedIn(names, id, Do(w, s))
  {
    hide NamedIn, RowIn;
    DoorStep(names, id, w, Do(w, s));
  }

  lemma EndsIn(names: set<Person>, id: ActionId, w: World, c: nat, result: DecisionResult)
    requires NamedIn(names, id, w) && c in w.calls
    ensures NamedIn(names, id, Reply(w, c, result)) && NamedIn(names, id, Reject(w, c))
  {
    hide NamedIn, RowIn, CallIn;
    DoorStep(names, id, w, Reply(w, c, result));
    DoorStep(names, id, w, Reject(w, c));
  }

  lemma ReadsActionIn(names: set<Person>, id: ActionId, w: World, c: nat)
    requires NamedIn(names, id, w)
    ensures NamedIn(names, id, DoReadAction(w, c))
  {
    hide NamedIn, RowIn;
    if c in w.calls {
      CallAt(names, id, w, c);
      DoorStep(names, id, w, DoReadAction(w, c));
    }
  }

  lemma ReadsApprovalIn(names: set<Person>, id: ActionId, w: World, c: nat)
    requires NamedIn(names, id, w)
    ensures NamedIn(names, id, DoReadApproval(w, c))
  {
    hide NamedIn, RowIn, MayDecide, Reply, Reject;
    if c in w.calls && w.calls[c].phase.SawAction? {
      var k := (w.calls[c].run, w.calls[c].action);
      CallAt(names, id, w, c);
      if k in w.approvals {
        EndsIn(names, id, w, c, AlreadyDecided(w.approvals[k].approver, w.approvals[k].channel));
      } else if !MayDecide(w.calls[c], w.calls[c].phase.info, w.calls[c].phase.row) {
        EndsIn(names, id, w, c, Rejected);
      } else {
        DoorStep(names, id, w, DoReadApproval(w, c));
      }
    }
  }

  lemma CommitsIn(names: set<Person>, id: ActionId, w: World, c: nat)
    requires NamedIn(names, id, w)
    ensures NamedIn(names, id, DoCommit(w, c))
  {
    hide NamedIn, RowIn, Enqueue;
    if c in w.calls {
      CallAt(names, id, w, c);
      DoorStep(names, id, w, DoCommit(w, c));
    }
  }

  lemma TellsIn(names: set<Person>, id: ActionId, w: World, c: nat)
    requires NamedIn(names, id, w)
    ensures NamedIn(names, id, DoTell(w, c))
  {
    hide NamedIn, RowIn, CallIn;
    if c in w.calls {
      BeginsIn(names, id, w, w.calls[c].run, AtHandoff);
      var w1 := NewPass(w, w.calls[c].run, AtHandoff);
      var v := DoTell(w, c);
      DoorStep(names, id, if w.calls[c].phase == Won then w1 else w, v);
    }
  }

  lemma StepIn(names: set<Person>, id: ActionId, w: World, s: Step)
    requires NamedIn(names, id, w) && Offered(names, id, s)
    ensures NamedIn(names, id, Do(w, s))
  {
    hide NamedIn, DoCreate, DoDiscover, DoCompile, DoGovern, DoPlan, DoHandOver, DoApplyDecisions, DoWrite, DoReconcile, DoCheck,
         DoFinish, DoReadAction, DoReadApproval, DoCommit, DoTell, DoSave, NewPass, Kill, Offers;
    match s
    case BeginPass(run) => BeginsIn(names, id, w, run, AtDiscover);
    case ResumePass(run) => BeginsIn(names, id, w, run, AtHandoff);
    case DiscoverSubject(p, who) => DiscoversIn(names, id, w, p, who);
    case CompileCase(p, blockers) => CompilesIn(names, id, w, p, blockers);
    case GovernCase(p, cs) => GovernsIn(names, id, w, p, cs);
    case PlanCase(p, cs) => PlansIn(names, id, w, p, cs);
    case HandOver(p) => HandsOverIn(names, id, w, p);
    case ApplyDecisions(p) => DecidesIn(names, id, w, p);
    case WriteStep(p) => WritesIn(names, id, w, p);
    case ReconcileStep(p, readable) => ReconcilesIn(names, id, w, p, readable);
    case SaveWrites(p) =>
      if p in w.passes && w.passes[p].pc == AllWritten {
        SavesIn(names, id, w, p, Stage.Execute, Checking(0));
      }
    case CheckStep(p, readable) => ChecksIn(names, id, w, p, readable);
    case FinishPass(p) => FinishesIn(names, id, w, p);
    case CrashPass(p) => CrashesIn(names, id, w, p);
    case CreateRun(run, requester) => CreatesIn(names, id, w, run, requester);
    case InjectFault(_, _, _) => StaysIn(names, id, w, Do(w, s));
    case Ask(_, _, _, _, _, _) => CallsIn(names, id, w, s);
    case CrashCall(_) => CallsIn(names, id, w, s);
    case ReadAction(c) => ReadsActionIn(names, id, w, c);
    case ReadApproval(c) => ReadsApprovalIn(names, id, w, c);
    case CommitDecision(c) => CommitsIn(names, id, w, c);
    case TellWinner(c) => TellsIn(names, id, w, c);
  }

  predicate AllOffered(names: set<Person>, id: ActionId, steps: seq<Step>) {
    forall i :: 0 <= i < |steps| ==> Offered(names, id, steps[i])
  }

  lemma {:induction false} RunsIn(names: set<Person>, id: ActionId, w: World, steps: seq<Step>)
    requires NamedIn(names, id, w) && AllOffered(names, id, steps)
    ensures NamedIn(names, id, Protocol.Run(w, steps))
    decreases |steps|
  {
    hide NamedIn, Do, Offered;
    if steps != [] {
      StepIn(names, id, w, steps[0]);
      RunsIn(names, id, Do(w, steps[0]), steps[1..]);
    }
  }

  // --- whose approval a write carries ---------------------------------------------------------------------------

  /** The action that write i was issued for names the person whose approval is recorded for it. */
  ghost predicate NamesApprover(w: World, i: nat)
    requires i < |w.past.writes|
  {
    var r := w.past.writes[i];
    var k := (r.key.run, r.key.action);
    k in w.approvals && r.approver == Some(w.approvals[k].approver)
  }

  /** In every schedule that names only people of `names` for the id, every write of a held action under the id was issued for
      an action that names the person who approved it. */
  ghost predicate KeepsApprover(ent: Body, gh: Body, names: set<Person>, id: ActionId) {
    forall steps, i :: AllOffered(names, id, steps) && HeldWrite(Protocol.Run(Init(ent, gh), steps), id, i) ==>
      NamesApprover(Protocol.Run(Init(ent, gh), steps), i)
  }

  ghost predicate HeldWrite(w: World, id: ActionId, i: nat) {
    i < |w.past.writes| && w.past.writes[i].key.action == id && w.past.writes[i].verdict == Some(HOLD)
  }

  lemma OneNameIsKept(ent: Body, gh: Body, names: set<Person>, id: ActionId, steps: seq<Step>, i: nat)
    requires forall x, y :: x in names && y in names ==> x == y
    requires AllOffered(names, id, steps) && HeldWrite(Protocol.Run(Init(ent, gh), steps), id, i)
    ensures NamesApprover(Protocol.Run(Init(ent, gh), steps), i)
  {
    hide Protocol.Run, AllOffered;
    var w := Protocol.Run(Init(ent, gh), steps);
    RunsIn(names, id, Init(ent, gh), steps);
    assert WriteIn(names, id, w.past.writes[i]);
    ProtocolProofs.WritesAreAuthorised(ent, gh, steps, i);
    var k := (w.past.writes[i].key.run, id);
    ProtocolProofs.DecidersAreNamed(ent, gh, steps, k);
    assert RowIn(names, id, k, w.approvals[k].row);
  }

  // --- two names ------------------------------------------------------------------------------------------------

  const BLANK: Params := Params("grant", Target("", "", "", "", "", ""))

  function Candid(id: ActionId, x: Person): Candidate { Candidate(id, BLANK, HeldFor(x)) }

  function Planned1(id: ActionId, x: Person): ActionView { Stamped(id, BLANK, HeldFor(x)) }

  function Approving(id: ActionId, x: Person): Call { Call(0, id, BLANK, "console", x, Decision.Approve, Asked) }

  /** The run is raised and planned for x. */
  function PlannedFor(id: ActionId, x: Person): seq<Step> {
    [CreateRun(0, Some(x + "r"))] + GoverningSteps(0, 0, Some(x + "s"), [], [Candid(id, x)])
  }

  lemma PlansFor(ent: Body, gh: Body, id: ActionId, x: Person)
    requires x != ""
    ensures var w := Protocol.Run(Init(ent, gh), PlannedFor(id, x));
            && w.runs == map[0 := RunInfo(Some(x + "r"), Some(x + "s"))] && w.approvals == map[] && w.past.writes == []
            && w.rows == map[(0, id) := Planned1(id, x)]
  {
    hide GoverningSteps;
    var w0, create := Init(ent, gh), CreateRun(0, Some(x + "r"));
    var w1 := Do(w0, create);
    OneStep(w0, create);
    GovernIsARun(w1, 0, Some(x + "s"), [], [Candid(id, x)]);
    OnePlanned(w1.rows, Candid(id, x));
    RunConcat(w0, [create], GoverningSteps(0, 0, Some(x + "s"), [], [Candid(id, x)]));
    var w2 := Protocol.Run(w1, GoverningSteps(0, 0, Some(x + "s"), [], [Candid(id, x)]));
    assert w2.runs == map[0 := RunInfo(Some(x + "r"), Some(x + "s"))];
  }

  lemma OthersNames(x: Person)
    requires x != ""
    ensures x + "r" != x && x + "s" != x && x + "r" != "" && x + "s" != ""
  {
    assert |x + "r"| == |x| + 1 && |x + "s"| == |x| + 1;
  }

  /** ... and approved by x. */
  lemma ApprovedBy(w: World, id: ActionId, x: Person)
    requires x != "" && w.runs == map[0 := RunInfo(Some(x + "r"), Some(x + "s"))] && w.approvals == map[]
    requires w.rows == map[(0, id) := Planned1(id, x)]
    ensures var v := Protocol.Run(w, DecideSteps(Approving(id, x), w.nextCall));
            && v.runs == w.runs && v.rows == w.rows && v.past == w.past && v.approvals.Keys == {(0, id)}
            && v.approvals[(0, id)].params == BLANK && v.approvals[(0, id)].approver == x
            && v.approvals[(0, id)].decision == Decision.Approve
  {
    hide DecideSteps;
    OthersNames(x);
    CallDecides(w, Approving(id, x));
  }

  function AgainSteps(p: nat, id: ActionId, y: Person): seq<Step> {
    PlanningSteps(0, p, SUBJECT, [], [Candid(id, y)], []) + [ApplyDecisions(p), WriteStep(p)]
  }

  /** The run starts over for y, and the pass writes under the approval of x. */
  lemma WritesUnderIt(w: World, id: ActionId, y: Person)
    requires 0 in w.runs && y != "" && w.past.writes == [] && (0, id) in w.approvals
    requires w.approvals[(0, id)].params == BLANK && w.approvals[(0, id)].decision == Decision.Approve
    ensures var v := Protocol.Run(w, AgainSteps(w.nextPass, id, y));
            && v.approvals == w.approvals && |v.past.writes| == 1 && v.past.writes[0].approver == Some(y)
            && HeldWrite(v, id, 0) && v.past.writes[0].key.run == 0
  {
    hide Do, RowsAgree, PlanningSteps, AfterDecisions;
    var a, p := Planned1(id, y), w.nextPass;
    var first := PlanningSteps(0, p, SUBJECT, [], [Candid(id, y)], []);
    OnePlanned(w.rows, Candid(id, y));
    PlanIsARun(w, 0, SUBJECT, [], [Candid(id, y)], []);
    var u := Protocol.Run(w, first);
    var c := Case(0, [a], []);
    assert RowsAgree(u.rows, 0, [a]) by { OneAgrees(u.rows, a); }
    ApproveSteps(u, p, 0, c);
    ApprovalCounts(u.approvals, a);
    ApproveIssuesNothing(u, p);
    var v := Do(u, ApplyDecisions(p));
    WriteIsRecorded(v, p, a.(state := Approved));
    TwoSteps(u, ApplyDecisions(p), WriteStep(p));
    RunConcat(w, first, [ApplyDecisions(p), WriteStep(p)]);
  }

  lemma ApprovalCounts(approvals: map<(RunId, ActionId), Approval>, a: ActionView)
    requires (0, a.id) in approvals && approvals[(0, a.id)].params == a.params && approvals[(0, a.id)].decision == Decision.Approve
    requires a.state == Awaiting
    ensures AfterDecisions(approvals, Case(0, [a], [])) == Case(0, [a.(state := Approved)], [])
  {
    var b := a.(state := Approved);
    assert [a][0] == a && [a][1..] == [] && [b][0] == b && [b][1..] == [];
    assert WithDecisions(approvals, 0, [a]) == [b];
    assert NewBlockers([b]) == NewBlockers([]) == [];
  }

  lemma ApproveIssuesNothing(w: World, p: nat)
    requires p in w.passes && w.passes[p].pc == AtApprove
    ensures Do(w, ApplyDecisions(p)).past.writes == w.past.writes && Do(w, ApplyDecisions(p)).approvals == w.approvals
  {
    hide DoApplyDecisions, AfterDecisions, DecidedIds, Synced, Dispatched;
    ApplyFrame(w, p);
  }

  lemma WriteIsRecorded(w: World, p: nat, a: ActionView)
    requires p in w.passes && w.passes[p] == Pass(0, Writing(0, 1), Case(0, [a], []), {}) && w.past.writes == []
    requires a.state == Approved && a.verdict == Some(HOLD)
    ensures var v := Do(w, WriteStep(p));
            v.past.writes == [WriteRecord(Key(0, a.id, a.params), a.verdict, a.approver, [])] && v.approvals == w.approvals
  {
    hide Issue, CanMove;
    AccessIs(w, p, RecordOf(w.passes[p], 0), true);
  }

  function TwoNames(id: ActionId, x: Person, y: Person, c: nat, p: nat): seq<Step> {
    PlannedFor(id, x) + (DecideSteps(Approving(id, x), c) + AgainSteps(p, id, y))
  }

  lemma TwoNamesAreOffered(names: set<Person>, id: ActionId, x: Person, y: Person, c: nat, p: nat)
    requires x in names && y in names
    ensures AllOffered(names, id, TwoNames(id, x, y, c, p))
  {
  }

  /** Two names for one id: x approves, the run starts over and names y, and the write for y is made under the approval of x. */
  lemma TwoNamesMix(ent: Body, gh: Body, id: ActionId, x: Person, y: Person) returns (c: nat, p: nat)
    requires x != "" && y != "" && x != y
    ensures var w := Protocol.Run(Init(ent, gh), TwoNames(id, x, y, c, p));
            HeldWrite(w, id, 0) && !NamesApprover(w, 0)
  {
    hide Do, Protocol.Run, PlannedFor, DecideSteps, AgainSteps, Init;
    PlansFor(ent, gh, id, x);
    var w1 := Protocol.Run(Init(ent, gh), PlannedFor(id, x));
    c := w1.nextCall;
    ApprovedBy(w1, id, x);
    var w2 := Protocol.Run(w1, DecideSteps(Approving(id, x), c));
    p := w2.nextPass;
    WritesUnderIt(w2, id, y);
    RunConcat(w1, DecideSteps(Approving(id, x), c), AgainSteps(p, id, y));
    RunConcat(Init(ent, gh), PlannedFor(id, x), DecideSteps(Approving(id, x), c) + AgainSteps(p, id, y));
  }

  /** Approvals stay with the people whom the written actions name exactly for ids that are only ever planned for one person. */
  lemma ApproverIsKeptExactly(ent: Body, gh: Body, names: set<Person>, id: ActionId)
    requires "" !in names
    ensures KeepsApprover(ent, gh, names, id) <==> forall x, y :: x in names && y in names ==> x == y
  {
    hide Protocol.Run, AllOffered, TwoNames;
    if x, y :| x in names && y in names && x != y {
      var c, p := TwoNamesMix(ent, gh, id, x, y);
      TwoNamesAreOffered(names, id, x, y, c, p);
    } else {
      forall steps, i | AllOffered(names, id, steps) && HeldWrite(Protocol.Run(Init(ent, gh), steps), id, i)
        ensures NamesApprover(Protocol.Run(Init(ent, gh), steps), i)
      {
        OneNameIsKept(ent, gh, names, id, steps, i);
      }
    }
  }
}
