/** What every interleaving of the protocol keeps. */
module ProtocolProofs {
  import opened Models
  import opened Order
  import opened Connector
  import opened Execute
  import opened Protocol

  // --- the invariant --------------------------------------------------------------------------------------------

  ghost predicate HasDecision(w: World, key: Key, d: Decision) {
    var k := (key.run, key.action);
    k in w.approvals && w.approvals[k].params == key.params && w.approvals[k].decision == d
  }

  function KeyOf(run: RunId, a: ActionView): Key { Key(run, a.id, a.params) }

  function LedgerOf(w: World, key: Key): set<Key> { DocOf(w.docs, key.params).ledger }

  /** Lawful; a held action that moved on was decided, for exactly its parameters; an executed action's key is in the
      ledger or a reconciling read-back found its state; a verified one was found so by the read-back of a verify pass. */
  ghost predicate ActionOk(w: World, run: RunId, a: ActionView) {
    var key := KeyOf(run, a);
    && Lawful(a) && a.verdict.Some?
    && (a.verdict == Some(HOLD) && a.state == Refused ==> HasDecision(w, key, Decision.Refuse))
    && (a.verdict == Some(HOLD) && a.state != Awaiting && a.state != Refused ==> HasDecision(w, key, Decision.Approve))
    && (a.state == Executed ==> key in LedgerOf(w, key) || key in w.past.seen)
    && (a.state == Verified ==> key in w.past.checks)
  }

  ghost predicate CaseOk(w: World, c: Case) {
    forall i :: 0 <= i < |c.actions| ==> ActionOk(w, c.run, c.actions[i])
  }

  ghost predicate PassOk(w: World, pass: Pass) {
    && pass.kase.run == pass.run
    && CaseOk(w, pass.kase)
    && match pass.pc
       case Writing(i, attempt) => pass.kase.blockers == [] && i <= |pass.kase.actions| && 1 <= attempt <= MAX_ATTEMPTS
       case Reconciling(i, attempt) =>
         pass.kase.blockers == [] && 1 <= attempt <= MAX_ATTEMPTS &&
         i < |pass.kase.actions| && IsExecutable(pass.kase.actions[i])
       case _ => true
  }

  /** ALLOW, or HOLD with an approval of exactly these parameters; and no blocker open. */
  ghost predicate Authorised(w: World, r: WriteRecord) {
    && r.blockers == []
    && (r.verdict == Some(ALLOW) || (r.verdict == Some(HOLD) && HasDecision(w, r.key, Decision.Approve)))
  }

  /** A pass that has begun read the state back and found what the action intended. */
  ghost predicate CheckOk(w: World, key: Key)
    requires key in w.past.checks
  {
    w.past.checks[key].pass < w.nextPass && ReadBack(w.past.checks[key].body, key.params) == Seen(true)
  }

  ghost predicate RailInv(w: World) {
    && (forall run :: run in w.capsules ==> w.capsules[run].run == run && CaseOk(w, w.capsules[run]))
    && (forall p :: p in w.passes ==> p < w.nextPass && PassOk(w, w.passes[p]))
    && (forall i :: 0 <= i < |w.past.writes| ==> Authorised(w, w.past.writes[i]))
    && (forall key :: key in w.past.seen ==> ReadBack(w.past.seen[key], key.params) == Seen(true))
    && (forall key :: key in w.past.checks ==> CheckOk(w, key))
    && !w.past.illegal
  }

  ghost predicate DocsInv(ent: Body, gh: Body, w: World) {
    Faithful(ent, w.docs.ent) && Faithful(gh, w.docs.gh)
  }

  function DecidedRows(audit: seq<AuditRow>, k: (RunId, ActionId)): seq<AuditRow> {
    if audit == [] then []
    else
      var last := audit[|audit| - 1];
      DecidedRows(audit[..|audit| - 1], k) + if last.Decided? && (last.run, last.action) == k then [last] else []
  }

  /** A decision row was made by the approver named on the action it read, for the parameters it read, while that
      action awaited, by someone who neither raised nor benefits from the request. */
  ghost predicate ProperDecision(w: World, k: (RunId, ActionId), d: Approval) {
    && d.row.state == Awaiting && d.row.params == d.params && d.row.approver == Some(d.approver)
    && Separate(d.info, d.approver)
    && k.0 in w.runs && w.runs[k.0].requestedBy == d.info.requestedBy
    && d.call < w.nextCall
  }

  ghost predicate CallOk(w: World, c: nat, call: Call) {
    var k := (call.run, call.action);
    && c < w.nextCall
    && match call.phase
       case Asked => true
       case SawAction(info, _) => call.run in w.runs && w.runs[call.run].requestedBy == info.requestedBy
       case Cleared(info, row) =>
         && call.run in w.runs && w.runs[call.run].requestedBy == info.requestedBy
         && MayDecide(call, info, row)
       case Won => k in w.approvals && w.approvals[k].call == c &&
                   w.approvals[k].approver == call.actor && w.approvals[k].channel == call.channel
       case Lost => k in w.approvals
  }

  ghost predicate AnswerOk(w: World, a: Answer) {
    var k := (a.run, a.action);
    && a.call < w.nextCall && a.call !in w.calls
    && match a.result
       case Recorded(who, via) => k in w.approvals && w.approvals[k].call == a.call &&
                                  w.approvals[k].approver == who && w.approvals[k].channel == via
       case AlreadyDecided(who, via) => k in w.approvals && w.approvals[k].approver == who &&
                                        w.approvals[k].channel == via
       case Rejected => true
  }

  function RowOf(k: (RunId, ActionId), d: Approval): AuditRow {
    Decided(k.0, k.1, d.approver, d.decision, d.channel, d.params)
  }

  /** A dedupe key is used once. */
  ghost predicate OneEach(jobs: seq<JobRow>) {
    forall i, j :: 0 <= i < j < |jobs| ==> !SameKey(jobs[i], jobs[j])
  }

  ghost predicate DoorInv(w: World) {
    && (forall k :: k in w.approvals ==> ProperDecision(w, k, w.approvals[k]))
    && (forall k :: DecidedRows(w.audit, k) == if k in w.approvals then [RowOf(k, w.approvals[k])] else [])
    && OneEach(w.jobs)
    && (forall run: RunId, action: ActionId :: Mirror(run, action) in w.jobs <==> (run, action) in w.approvals)
    && (forall run: RunId, action: ActionId :: DoorUpdate(run, action) in w.jobs <==> (run, action) in w.approvals)
    && (forall c :: c in w.calls ==> CallOk(w, c, w.calls[c]))
    && (forall i :: 0 <= i < |w.answers| ==> AnswerOk(w, w.answers[i]))
    && (forall i, j :: 0 <= i < j < |w.answers| ==> w.answers[i].call != w.answers[j].call)
  }

  ghost predicate Inv(ent: Body, gh: Body, w: World) {
    RailInv(w) && DocsInv(ent, gh, w) && DoorInv(w)
  }

  // --- frames ---------------------------------------------------------------------------------------------------

  /** Approvals, ledgers and read-backs are only ever added to. */
  ghost predicate Grows(w: World, v: World) {
    && (forall k :: k in w.approvals ==> k in v.approvals && v.approvals[k] == w.approvals[k])
    && w.docs.ent.ledger <= v.docs.ent.ledger && w.docs.gh.ledger <= v.docs.gh.ledger
    && (forall k :: k in w.past.seen ==> k in v.past.seen)
    && (forall k :: k in w.past.checks ==> k in v.past.checks)
    && w.nextPass <= v.nextPass
  }

  lemma ActionGrows(w: World, v: World, run: RunId, a: ActionView)
    requires Grows(w, v) && ActionOk(w, run, a)
    ensures ActionOk(v, run, a)
  {
  }

  lemma CaseGrows(w: World, v: World, c: Case)
    requires Grows(w, v) && CaseOk(w, c)
    ensures CaseOk(v, c)
  {
    forall i | 0 <= i < |c.actions| ensures ActionOk(v, c.run, c.actions[i]) {
      ActionGrows(w, v, c.run, c.actions[i]);
    }
  }

  /** A step that adds facts and changes at most pass p and the capsule of its run, keeping them sound, keeps the rail's
      invariant. */
  lemma RailFrame(w: World, v: World, p: nat, run: RunId)
    requires RailInv(w) && Grows(w, v)
    requires forall q :: q in v.passes && q != p ==> q in w.passes && v.passes[q] == w.passes[q]
    requires p in v.passes ==> p < v.nextPass && PassOk(v, v.passes[p])
    requires forall r :: r in v.capsules && r != run ==> r in w.capsules && v.capsules[r] == w.capsules[r]
    requires run in v.capsules ==> v.capsules[run].run == run && CaseOk(v, v.capsules[run])
    requires forall i :: 0 <= i < |v.past.writes| ==> Authorised(v, v.past.writes[i])
    requires forall key :: key in v.past.seen ==> ReadBack(v.past.seen[key], key.params) == Seen(true)
    requires forall key :: key in v.past.checks ==> CheckOk(v, key)
    requires !v.past.illegal
    ensures RailInv(v)
  {
    forall r | r in v.capsules ensures v.capsules[r].run == r && CaseOk(v, v.capsules[r]) {
      if r != run {
        CaseGrows(w, v, w.capsules[r]);
      }
    }
    forall q | q in v.passes ensures q < v.nextPass && PassOk(v, v.passes[q]) {
      if q != p {
        CaseGrows(w, v, w.passes[q].kase);
      }
    }
  }

  lemma WritesGrow(w: World, v: World)
    requires RailInv(w) && Grows(w, v) && v.past.writes == w.past.writes
    ensures forall i :: 0 <= i < |v.past.writes| ==> Authorised(v, v.past.writes[i])
  {
    forall i | 0 <= i < |v.past.writes| ensures Authorised(v, v.past.writes[i]) {
      assert Authorised(w, w.past.writes[i]);
    }
  }

  /** A step that leaves the door's tables alone, up to stage rows and dispatch jobs, keeps the door's invariant. */
  lemma DoorFrame(w: World, v: World)
    requires DoorInv(w)
    requires v.approvals == w.approvals && v.calls == w.calls && v.nextCall == w.nextCall && v.answers == w.answers
    requires forall k :: DecidedRows(v.audit, k) == DecidedRows(w.audit, k)
    requires OneEach(w.jobs) ==> OneEach(v.jobs)
    requires forall j: JobRow :: (j.Mirror? || j.DoorUpdate?) ==> (j in v.jobs <==> j in w.jobs)
    requires forall r :: r in w.runs ==> r in v.runs && v.runs[r].requestedBy == w.runs[r].requestedBy
    ensures DoorInv(v)
  {
    forall c | c in v.calls ensures CallOk(v, c, v.calls[c]) {
      assert CallOk(w, c, w.calls[c]);
    }
    forall i | 0 <= i < |v.answers| ensures AnswerOk(v, v.answers[i]) {
      assert AnswerOk(w, w.answers[i]);
    }
    forall k | k in v.approvals ensures ProperDecision(v, k, v.approvals[k]) {
      assert ProperDecision(w, k, w.approvals[k]);
    }
  }

  lemma AuditAppend(audit: seq<AuditRow>, row: AuditRow)
    ensures forall k :: DecidedRows(audit + [row], k) ==
                        DecidedRows(audit, k) + if row.Decided? && (row.run, row.action) == k then [row] else []
  {
    assert (audit + [row])[..|audit + [row]| - 1] == audit;
  }

  /** Only decision rows count as decisions. */
  lemma OtherRow(audit: seq<AuditRow>, row: AuditRow)
    requires !row.Decided?
    ensures forall k :: DecidedRows(audit + [row], k) == DecidedRows(audit, k)
  {
    AuditAppend(audit, row);
  }

  lemma EnqueueKeeps(jobs: seq<JobRow>, j: JobRow)
    requires OneEach(jobs)
    ensures OneEach(Enqueue(jobs, j)) && jobs <= Enqueue(jobs, j)
    ensures forall k :: k in Enqueue(jobs, j) ==> k in jobs || k == j
    ensures !j.Dispatch? ==> j in Enqueue(jobs, j)
  {
    assert forall i :: 0 <= i < |jobs| ==> jobs[i] in jobs;
  }

  lemma {:induction false} DispatchKeeps(jobs: seq<JobRow>, run: RunId, actions: seq<ActionView>)
    requires OneEach(jobs)
    ensures OneEach(Dispatched(jobs, run, actions)) && jobs <= Dispatched(jobs, run, actions)
    ensures forall j: JobRow :: !j.Dispatch? ==> (j in Dispatched(jobs, run, actions) <==> j in jobs)
    decreases |actions|
  {
    hide Enqueue, Waits;
    if actions != [] {
      var next := if Waits(actions[0]) then Enqueue(jobs, AskFor(run, actions[0])) else jobs;
      EnqueueKeeps(jobs, AskFor(run, actions[0]));
      DispatchKeeps(next, run, actions[1..]);
    }
  }

  lemma OneEachOnce(jobs: seq<JobRow>)
    requires OneEach(jobs)
    ensures NoDuplicates(jobs)
  {
  }

  // --- rail steps -----------------------------------------------------------------------------------------------

  lemma NewPassKeeps(ent: Body, gh: Body, w: World, run: RunId, pc: Pc)
    requires Inv(ent, gh, w) && (pc == AtDiscover || pc == AtHandoff)
    ensures Inv(ent, gh, NewPass(w, run, pc))
  {
    var v := NewPass(w, run, pc);
    WritesGrow(w, v);
    forall r | r in w.capsules ensures CaseOk(v, w.capsules[r]) {
      CaseGrows(w, v, w.capsules[r]);
    }
    RailFrame(w, v, w.nextPass, run);
    DoorFrame(w, v);
  }

  lemma PutKeeps(ent: Body, gh: Body, w: World, p: nat, pass: Pass)
    requires Inv(ent, gh, w) && p in w.passes && PassOk(w, pass)
    ensures Inv(ent, gh, Put(w, p, pass))
  {
    hide DoorInv, ActionOk, DecidedRows, Authorised, NoDuplicates, OneEach;
    var v := Put(w, p, pass);
    WritesGrow(w, v);
    CaseGrows(w, v, pass.kase);
    if pass.run in w.capsules {
      CaseGrows(w, v, w.capsules[pass.run]);
    }
    RailFrame(w, v, p, pass.run);
    DoorFrame(w, v);
  }

  lemma KillKeeps(ent: Body, gh: Body, w: World, p: nat)
    requires Inv(ent, gh, w)
    ensures Inv(ent, gh, Kill(w, p))
  {
    hide DoorInv, ActionOk, DecidedRows, Authorised, NoDuplicates, OneEach;
    var v := Kill(w, p);
    WritesGrow(w, v);
    forall r | r in w.capsules ensures CaseOk(v, w.capsules[r]) {
      CaseGrows(w, v, w.capsules[r]);
    }
    RailFrame(w, v, p, 0);
    DoorFrame(w, v);
  }

  /** The parts of the invariant a step of pass p works from. */
  lemma PassAt(ent: Body, gh: Body, w: World, p: nat)
    requires Inv(ent, gh, w) && p in w.passes
    ensures PassOk(w, w.passes[p]) && OneEach(w.jobs)
    ensures forall i :: 0 <= i < |w.passes[p].kase.actions| ==> ActionOk(w, w.passes[p].run, w.passes[p].kase.actions[i])
  {
    assert PassOk(w, w.passes[p]);
  }

  /** Saving a case that is sound, with a stage row. */
  lemma SaveKeeps(ent: Body, gh: Body, w: World, v: World, p: nat, pass: Pass, stage: Stage)
    requires Inv(ent, gh, w) && p in w.passes && PassOk(w, pass) && pass.run == w.passes[p].run
    requires v == Put(w, p, pass).(capsules := w.capsules[pass.run := pass.kase], rows := v.rows, jobs := v.jobs,
                                   audit := w.audit + [StageDone(pass.run, stage)])
    requires (OneEach(w.jobs) ==> OneEach(v.jobs)) && forall j: JobRow :: (j.Mirror? || j.DoorUpdate?) ==> (j in v.jobs <==> j in w.jobs)
    ensures Inv(ent, gh, v)
  {
    hide DoorInv, ActionOk, DecidedRows, Authorised, NoDuplicates, OneEach;
    WritesGrow(w, v);
    CaseGrows(w, v, pass.kase);
    RailFrame(w, v, p, pass.run);
    OtherRow(w.audit, StageDone(pass.run, stage));
    DoorFrame(w, v);
  }

  lemma {:induction false} StampedIsSound(w: World, run: RunId, cs: seq<Candidate>)
    requires forall i :: 0 <= i < |cs| ==> WellFormed(cs[i].verdict)
    ensures forall i :: 0 <= i < |StampAll(cs)| ==> ActionOk(w, run, StampAll(cs)[i])
  {
    if cs != [] {
      StampedIsSound(w, run, cs[1..]);
    }
  }

  lemma CompileKeeps(ent: Body, gh: Body, w: World, p: nat, blockers: seq<string>)
    requires Inv(ent, gh, w)
    ensures Inv(ent, gh, DoCompile(w, p, blockers))
  {
    var v := DoCompile(w, p, blockers);
    if v != w {
      SaveKeeps(ent, gh, w, v, p, v.passes[p], Stage.Compile);
    }
  }

  lemma GovernKeeps(ent: Body, gh: Body, w: World, p: nat, cs: seq<Candidate>)
    requires Inv(ent, gh, w)
    ensures Inv(ent, gh, DoGovern(w, p, cs))
  {
    var v := DoGovern(w, p, cs);
    if v != w {
      StampedIsSound(w, w.passes[p].run, cs);
      SaveKeeps(ent, gh, w, v, p, v.passes[p], Stage.Govern);
    }
  }

  lemma PlanKeeps(ent: Body, gh: Body, w: World, p: nat, cs: seq<Candidate>)
    requires Inv(ent, gh, w)
    ensures Inv(ent, gh, DoPlan(w, p, cs))
  {
    var v := DoPlan(w, p, cs);
    if v != w {
      var pass := w.passes[p];
      assert PassOk(w, pass);
      StampedIsSound(w, pass.run, cs);
      var all := pass.kase.actions + StampAll(cs);
      SortByPermutes(all, PlanKey);
      var c := v.passes[p].kase;
      forall i | 0 <= i < |c.actions| ensures ActionOk(w, c.run, c.actions[i]) {
        assert c.actions[i] in all;
        var j :| 0 <= j < |all| && all[j] == c.actions[i];
        assert ActionOk(w, c.run, all[j]);
      }
      SaveKeeps(ent, gh, w, v, p, v.passes[p], Stage.Plan);
    }
  }

  lemma HandOverKeeps(ent: Body, gh: Body, w: World, p: nat)
    requires Inv(ent, gh, w)
    ensures Inv(ent, gh, DoHandOver(w, p))
  {
    hide DoorInv, DecidedRows, NoDuplicates, OneEach, ActionOk;
    var v := DoHandOver(w, p);
    if v != w {
      var run := w.passes[p].run;
      if run in w.capsules {
        assert w.capsules == w.capsules[run := w.capsules[run]];
        SaveKeeps(ent, gh, w, v, p, v.passes[p], Stage.Handoff);
      } else {
        KillKeeps(ent, gh, w, p);
      }
    }
  }

  /** Decisions move only awaiting actions, legally, and give each the evidence its new state needs. */
  lemma DecisionsAreSound(w: World, c: Case)
    requires CaseOk(w, c)
    ensures AfterDecisions(w.approvals, c).run == c.run && CaseOk(w, AfterDecisions(w.approvals, c))
    ensures !RaisesOnDecision(w.approvals, c)
  {
    var after := WithDecisions(w.approvals, c.run, c.actions);
    forall i | 0 <= i < |after|
      ensures ActionOk(w, c.run, after[i])
      ensures Counts(w.approvals, c.run, c.actions[i]) ==>
                CanMove(c.actions[i], DecidedState(w.approvals, c.run, c.actions[i]))
    {
      assert ActionOk(w, c.run, c.actions[i]);
    }
  }

  lemma ApplyDecisionsKeeps(ent: Body, gh: Body, w: World, p: nat)
    requires Inv(ent, gh, w)
    ensures Inv(ent, gh, DoApplyDecisions(w, p))
  {
    hide RailInv, DoorInv, DocsInv, CaseOk, RaisesOnDecision, AfterDecisions, DecidedIds, Dispatched, Synced, CanSync;
    if p in w.passes && w.passes[p].pc == AtApprove {
      PassAt(ent, gh, w, p);
      var pass := w.passes[p];
      DecisionsAreSound(w, pass.kase);
      var c := AfterDecisions(w.approvals, pass.kase);
      if CanSync(w.rows, pass.run, c.actions, DecidedIds(w.approvals, pass.kase)) {
        var v := DoApplyDecisions(w, p);
        DispatchKeeps(w.jobs, pass.run, c.actions);
        SaveKeeps(ent, gh, w, v, p, v.passes[p], Stage.Approve);
      } else {
        KillKeeps(ent, gh, w, p);
      }
    }
  }

  lemma SaveStepKeeps(ent: Body, gh: Body, w: World, p: nat, stage: Stage, pc: Pc)
    requires Inv(ent, gh, w) && p in w.passes && (pc == Checking(0) || pc == AllChecked)
    ensures Inv(ent, gh, DoSave(w, p, stage, pc))
  {
    var v := DoSave(w, p, stage, pc);
    PassAt(ent, gh, w, p);
    if CanSync(w.rows, w.passes[p].run, w.passes[p].kase.actions, w.passes[p].touched) {
      SaveKeeps(ent, gh, w, v, p, v.passes[p], stage);
    } else {
      KillKeeps(ent, gh, w, p);
    }
  }

  /** A legal move of one action whose new state is proven. */
  lemma AdvanceKeeps(ent: Body, gh: Body, w: World, p: nat, i: nat, to: ActionState, pc: Pc)
    requires Inv(ent, gh, w) && p in w.passes && i < |w.passes[p].kase.actions|
    requires var a := w.passes[p].kase.actions[i];
             CanMove(a, to) && ActionOk(w, w.passes[p].run, a.(state := to))
    requires (pc == Writing(i + 1, 1) && w.passes[p].kase.blockers == []) || pc == Checking(i + 1)
    ensures Inv(ent, gh, Advance(w, p, i, to, pc))
  {
    PassAt(ent, gh, w, p);
    PutKeeps(ent, gh, w, p, Advance(w, p, i, to, pc).passes[p]);
  }

  /** One connector access: documents may change, a write and what a read-back saw may be recorded. */
  lemma AccessKeeps(ent: Body, gh: Body, w: World, v: World)
    requires Inv(ent, gh, w) && DocsInv(ent, gh, v) && Grows(w, v)
    requires v == w.(docs := v.docs, past := v.past) && v.past.illegal == w.past.illegal
    requires v.past.writes == w.past.writes || exists r :: Authorised(w, r) && v.past.writes == w.past.writes + [r]
    requires forall key :: key in v.past.seen && !(key in w.past.seen && v.past.seen[key] == w.past.seen[key]) ==>
               ReadBack(v.past.seen[key], key.params) == Seen(true)
    requires forall key :: key in v.past.checks && !(key in w.past.checks && v.past.checks[key] == w.past.checks[key]) ==> CheckOk(v, key)
    ensures Inv(ent, gh, v)
  {
    forall i | 0 <= i < |v.past.writes| ensures Authorised(v, v.past.writes[i]) {
      assert i < |w.past.writes| ==> Authorised(w, w.past.writes[i]);
    }
    forall r | r in w.capsules ensures CaseOk(v, w.capsules[r]) {
      CaseGrows(w, v, w.capsules[r]);
    }
    forall q | q in w.passes ensures PassOk(v, w.passes[q]) {
      CaseGrows(w, v, w.passes[q].kase);
    }
    DoorFrame(w, v);
  }

  lemma IssueKeeps(ent: Body, gh: Body, w: World, r: WriteRecord)
    requires Inv(ent, gh, w) && Authorised(w, r)
    ensures var (v, out) := Issue(w, r);
            && Inv(ent, gh, v) && Grows(w, v) && v.passes == w.passes
            && (out.Acknowledged? ==> r.key in LedgerOf(v, r.key))
  {
    WriteIsFaithful(if ToGitHub(r.key.params) then gh else ent, DocOf(w.docs, r.key.params), r.key);
    AccessKeeps(ent, gh, w, Issue(w, r).0);
  }

  lemma LookKeeps(ent: Body, gh: Body, w: World, key: Key, readable: bool)
    requires Inv(ent, gh, w)
    ensures var (v, r) := Look(w, key, readable);
            Inv(ent, gh, v) && Grows(w, v) && (r == Seen(true) ==> key in v.past.seen)
  {
    AccessKeeps(ent, gh, w, Look(w, key, readable).0);
  }

  lemma JudgeKeeps(ent: Body, gh: Body, w: World, p: nat, key: Key, readable: bool)
    requires Inv(ent, gh, w) && p in w.passes
    ensures var (v, r) := Judge(w, p, key, readable);
            Inv(ent, gh, v) && Grows(w, v) && v.passes == w.passes && (r == Seen(true) ==> key in v.past.checks)
  {
    AccessKeeps(ent, gh, w, Judge(w, p, key, readable).0);
  }

  /** After a write or a read-back the pass retries, reconciles or moves action i to a state it has evidence for. */
  lemma NextKeeps(ent: Body, gh: Body, w: World, p: nat, next: Next)
    requires Inv(ent, gh, w) && p in w.passes
    requires w.passes[p].pc.Writing? || w.passes[p].pc.Reconciling?
    requires w.passes[p].pc.i < |w.passes[p].kase.actions| && IsExecutable(w.passes[p].kase.actions[w.passes[p].pc.i])
    requires var a := w.passes[p].kase.actions[w.passes[p].pc.i];
             var key := KeyOf(w.passes[p].run, a);
             match next
             case Finish(s) => s in {Executed, Failed, Unknown} &&
                               (s == Executed ==> key in LedgerOf(w, key) || key in w.past.seen)
             case Retry => w.passes[p].pc.attempt < MAX_ATTEMPTS
             case Reconcile => true
    ensures var i, attempt := w.passes[p].pc.i, w.passes[p].pc.attempt;
            Inv(ent, gh, match next
                         case Finish(s) => Advance(w, p, i, s, Writing(i + 1, 1))
                         case Retry => Put(w, p, w.passes[p].(pc := Writing(i, attempt + 1)))
                         case Reconcile => Put(w, p, w.passes[p].(pc := Reconciling(i, attempt))))
  {
    hide RailInv, DoorInv, DocsInv;
    PassAt(ent, gh, w, p);
    var pass := w.passes[p];
    match next
    case Finish(s) => AdvanceKeeps(ent, gh, w, p, pass.pc.i, s, Writing(pass.pc.i + 1, 1));
    case Retry => PutKeeps(ent, gh, w, p, pass.(pc := Writing(pass.pc.i, pass.pc.attempt + 1)));
    case Reconcile => PutKeeps(ent, gh, w, p, pass.(pc := Reconciling(pass.pc.i, pass.pc.attempt)));
  }

  /** An executable action of a writing pass may be written. */
  lemma ExecutableIsAuthorised(w: World, pass: Pass, i: nat)
    requires PassOk(w, pass) && pass.pc.Writing? && i < |pass.kase.actions| && IsExecutable(pass.kase.actions[i])
    ensures var a := pass.kase.actions[i]; Authorised(w, WriteRecord(KeyOf(pass.run, a), a.verdict, a.approver, pass.kase.blockers))
  {
    assert ActionOk(w, pass.run, pass.kase.actions[i]);
  }

  /** Writing one executable action. */
  lemma WriteOneKeeps(ent: Body, gh: Body, w: World, p: nat)
    requires Inv(ent, gh, w) && p in w.passes && w.passes[p].pc.Writing?
    requires w.passes[p].pc.i < |w.passes[p].kase.actions| && IsExecutable(w.passes[p].kase.actions[w.passes[p].pc.i])
    ensures Inv(ent, gh, DoWrite(w, p))
  {
    hide Inv, Issue, Advance, Authorised, ActionOk, CaseOk, IsExecutable;
    PassAt(ent, gh, w, p);
    var pass := w.passes[p];
    var a := pass.kase.actions[pass.pc.i];
    var r := WriteRecord(KeyOf(pass.run, a), a.verdict, a.approver, pass.kase.blockers);
    ExecutableIsAuthorised(w, pass, pass.pc.i);
    IssueKeeps(ent, gh, w, r);
    var (w1, out) := Issue(w, r);
    NextKeeps(ent, gh, w1, p, AfterWrite(out, pass.pc.attempt, MAX_ATTEMPTS));
  }

  lemma WriteStepKeeps(ent: Body, gh: Body, w: World, p: nat)
    requires Inv(ent, gh, w)
    ensures Inv(ent, gh, DoWrite(w, p))
  {
    hide Inv, Issue, Advance, ActionOk, IsExecutable;
    if p in w.passes && w.passes[p].pc.Writing? {
      PassAt(ent, gh, w, p);
      var pass := w.passes[p];
      if pass.pc.i < |pass.kase.actions| && IsExecutable(pass.kase.actions[pass.pc.i]) {
        WriteOneKeeps(ent, gh, w, p);
      } else {
        PutKeeps(ent, gh, w, p, DoWrite(w, p).passes[p]);
      }
    }
  }

  lemma ReconcileKeeps(ent: Body, gh: Body, w: World, p: nat, readable: bool)
    requires Inv(ent, gh, w)
    ensures Inv(ent, gh, DoReconcile(w, p, readable))
  {
    hide RailInv, DoorInv, DocsInv;
    if p in w.passes && w.passes[p].pc.Reconciling? {
      PassAt(ent, gh, w, p);
      var pass := w.passes[p];
      var key := KeyOf(pass.run, pass.kase.actions[pass.pc.i]);
      LookKeeps(ent, gh, w, key, readable);
      var (w1, r) := Look(w, key, readable);
      NextKeeps(ent, gh, w1, p, AfterReadback(r, pass.pc.attempt, MAX_ATTEMPTS));
    }
  }

  /** Reading one written action back. */
  lemma CheckOneKeeps(ent: Body, gh: Body, w: World, p: nat, readable: bool)
    requires Inv(ent, gh, w) && p in w.passes && w.passes[p].pc.Checking?
    requires w.passes[p].pc.i < |w.passes[p].kase.actions|
    requires Verifiable(w.passes[p].kase.actions[w.passes[p].pc.i].state)
    ensures Inv(ent, gh, DoCheck(w, p, readable))
  {
    hide Inv, CaseOk, PassOk, Advance, DoSave;
    var pass := w.passes[p];
    var key := KeyOf(pass.run, pass.kase.actions[pass.pc.i]);
    JudgeKeeps(ent, gh, w, p, key, readable);
    var (w1, r) := Judge(w, p, key, readable);
    PassAt(ent, gh, w1, p);
    AdvanceKeeps(ent, gh, w1, p, pass.pc.i, VerifiedState(r), Checking(pass.pc.i + 1));
  }

  lemma CheckKeeps(ent: Body, gh: Body, w: World, p: nat, readable: bool)
    requires Inv(ent, gh, w)
    ensures Inv(ent, gh, DoCheck(w, p, readable))
  {
    hide Inv, ActionOk, Judge, Advance, DoSave;
    if p in w.passes && w.passes[p].pc.Checking? {
      PassAt(ent, gh, w, p);
      var pass := w.passes[p];
      var i := pass.pc.i;
      if i >= |pass.kase.actions| {
        SaveStepKeeps(ent, gh, w, p, Stage.Verify, AllChecked);
      } else if !Verifiable(pass.kase.actions[i].state) {
        PutKeeps(ent, gh, w, p, pass.(pc := Checking(i + 1)));
      } else {
        CheckOneKeeps(ent, gh, w, p, readable);
      }
    }
  }

  lemma JobsAt(w: World)
    requires DoorInv(w)
    ensures OneEach(w.jobs)
  {
  }

  lemma FinishKeeps(ent: Body, gh: Body, w: World, p: nat)
    requires Inv(ent, gh, w)
    ensures Inv(ent, gh, DoFinish(w, p))
  {
    hide DoorInv, ActionOk, DecidedRows, Authorised, NoDuplicates, OneEach, ReceiptOf, Enqueue;
    var v := DoFinish(w, p);
    if v != w {
      var pass := w.passes[p];
      assert PassOk(w, pass);
      WritesGrow(w, v);
      CaseGrows(w, v, pass.kase);
      RailFrame(w, v, p, pass.run);
      OtherRow(w.audit, StageDone(pass.run, Stage.Finalize));
      JobsAt(w);
      EnqueueKeeps(w.jobs, ReceiptOf(pass.kase));
      DoorFrame(w, v);
    }
  }

  // --- door steps -----------------------------------------------------------------------------------------------

  /** Nothing the rail's invariant speaks about changed, except that approvals may have been added. */
  lemma RailUntouched(w: World, v: World)
    requires RailInv(w) && Grows(w, v)
    requires v.passes == w.passes && v.capsules == w.capsules && v.past == w.past
    ensures RailInv(v)
  {
    WritesGrow(w, v);
    forall r | r in w.capsules ensures CaseOk(v, w.capsules[r]) {
      CaseGrows(w, v, w.capsules[r]);
    }
    RailFrame(w, v, w.nextPass, 0);
  }

  /** One call is asked, goes on or ends; it may end with an answer. */
  ghost predicate CallMoves(w: World, v: World, c: nat) {
    && v == w.(calls := v.calls, nextCall := v.nextCall, answers := v.answers, audit := v.audit)
    && w.nextCall <= v.nextCall
    && (forall d :: d in v.calls && d != c ==> d in w.calls && v.calls[d] == w.calls[d])
    && (c in v.calls ==> CallOk(v, c, v.calls[c]) && (c in w.calls || c == w.nextCall))
    && (v.answers == w.answers ||
        (c in w.calls && c !in v.calls && |v.answers| == |w.answers| + 1 && v.answers[..|w.answers|] == w.answers &&
         v.answers[|w.answers|].call == c && AnswerOk(v, v.answers[|w.answers|])))
    && (forall k :: DecidedRows(v.audit, k) == DecidedRows(w.audit, k))
  }

  lemma AnswersKeep(w: World, v: World, c: nat)
    requires DoorInv(w) && CallMoves(w, v, c)
    ensures forall i :: 0 <= i < |v.answers| ==> AnswerOk(v, v.answers[i])
    ensures forall i, j :: 0 <= i < j < |v.answers| ==> v.answers[i].call != v.answers[j].call
  {
    forall i | 0 <= i < |v.answers| ensures AnswerOk(v, v.answers[i]) {
      if i < |w.answers| {
        assert v.answers[i] == v.answers[..|w.answers|][i] == w.answers[i];
        assert AnswerOk(w, w.answers[i]);
      }
    }
    forall i, j | 0 <= i < j < |v.answers| ensures v.answers[i].call != v.answers[j].call {
      assert v.answers[i] == w.answers[i] && AnswerOk(w, w.answers[i]);
      assert j < |w.answers| ==> v.answers[j] == w.answers[j];
    }
  }

  lemma CallKeeps(ent: Body, gh: Body, w: World, v: World, c: nat)
    requires Inv(ent, gh, w) && CallMoves(w, v, c)
    ensures Inv(ent, gh, v)
  {
    RailUntouched(w, v);
    AnswersKeep(w, v, c);
    forall d | d in v.calls ensures CallOk(v, d, v.calls[d]) {
      assert d != c ==> CallOk(w, d, w.calls[d]);
    }
    forall k | k in v.approvals ensures ProperDecision(v, k, v.approvals[k]) {
      assert ProperDecision(w, k, w.approvals[k]);
    }
  }

  lemma CallAt(ent: Body, gh: Body, w: World, c: nat)
    requires Inv(ent, gh, w) && c in w.calls
    ensures CallOk(w, c, w.calls[c])
  {
  }

  lemma RejectKeeps(ent: Body, gh: Body, w: World, c: nat)
    requires Inv(ent, gh, w) && c in w.calls
    ensures Inv(ent, gh, Reject(w, c))
  {
    hide RailInv, DoorInv, DocsInv;
    CallAt(ent, gh, w, c);
    OtherRow(w.audit, NotDecided(w.calls[c].run, w.calls[c].action, w.calls[c].actor));
    CallKeeps(ent, gh, w, Reject(w, c), c);
  }

  lemma ReplyKeeps(ent: Body, gh: Body, w: World, c: nat, result: DecisionResult)
    requires Inv(ent, gh, w) && c in w.calls
    requires AnswerOk(Reply(w, c, result), Answer(c, w.calls[c].run, w.calls[c].action, result))
    ensures Inv(ent, gh, Reply(w, c, result))
  {
    hide RailInv, DoorInv, DocsInv;
    CallKeeps(ent, gh, w, Reply(w, c, result), c);
  }

  lemma ReadActionKeeps(ent: Body, gh: Body, w: World, c: nat)
    requires Inv(ent, gh, w)
    ensures Inv(ent, gh, DoReadAction(w, c))
  {
    hide RailInv, DoorInv, DocsInv;
    if c in w.calls && w.calls[c].phase == Asked {
      CallAt(ent, gh, w, c);
      if w.calls[c].run !in w.runs || (w.calls[c].run, w.calls[c].action) !in w.rows {
        RejectKeeps(ent, gh, w, c);
      } else {
        CallKeeps(ent, gh, w, DoReadAction(w, c), c);
      }
    }
  }

  lemma ReadApprovalKeeps(ent: Body, gh: Body, w: World, c: nat)
    requires Inv(ent, gh, w)
    ensures Inv(ent, gh, DoReadApproval(w, c))
  {
    hide RailInv, DoorInv, DocsInv;
    if c in w.calls && w.calls[c].phase.SawAction? {
      CallAt(ent, gh, w, c);
      var call := w.calls[c];
      var k := (call.run, call.action);
      if k in w.approvals {
        ReplyKeeps(ent, gh, w, c, AlreadyDecided(w.approvals[k].approver, w.approvals[k].channel));
      } else if !MayDecide(call, call.phase.info, call.phase.row) {
        RejectKeeps(ent, gh, w, c);
      } else {
        CallKeeps(ent, gh, w, DoReadApproval(w, c), c);
      }
    }
  }

  /** The winner's transaction: its rows and jobs. */
  lemma WinRows(w: World, c: nat)
    requires DoorInv(w) && c in w.calls && w.calls[c].phase.Cleared?
    requires (w.calls[c].run, w.calls[c].action) !in w.approvals
    ensures var v := DoCommit(w, c);
            && (forall k :: k in v.approvals ==> ProperDecision(v, k, v.approvals[k]))
            && (forall k :: DecidedRows(v.audit, k) == if k in v.approvals then [RowOf(k, v.approvals[k])] else [])
  {
    WinAudit(w, c);
    WinDecisions(w, c);
  }

  lemma WinAudit(w: World, c: nat)
    requires DoorInv(w) && c in w.calls && w.calls[c].phase.Cleared?
    requires (w.calls[c].run, w.calls[c].action) !in w.approvals
    ensures var v := DoCommit(w, c);
            forall k :: DecidedRows(v.audit, k) == if k in v.approvals then [RowOf(k, v.approvals[k])] else []
  {
    hide CallOk, AnswerOk, ProperDecision, DecidedRows, NoDuplicates, OneEach, Enqueue;
    var v := DoCommit(w, c);
    var k := (w.calls[c].run, w.calls[c].action);
    assert v.audit == w.audit + [RowOf(k, v.approvals[k])];
    AuditAppend(w.audit, RowOf(k, v.approvals[k]));
  }

  lemma WinDecisions(w: World, c: nat)
    requires DoorInv(w) && c in w.calls && w.calls[c].phase.Cleared?
    requires (w.calls[c].run, w.calls[c].action) !in w.approvals
    ensures var v := DoCommit(w, c); forall k :: k in v.approvals ==> ProperDecision(v, k, v.approvals[k])
  {
    hide AnswerOk, DecidedRows, NoDuplicates, OneEach, Enqueue;
    var v := DoCommit(w, c);
    var k := (w.calls[c].run, w.calls[c].action);
    assert CallOk(w, c, w.calls[c]);
    forall l | l in v.approvals ensures ProperDecision(v, l, v.approvals[l]) {
      if l != k {
        assert ProperDecision(w, l, w.approvals[l]);
      }
    }
  }

  lemma WinJobs(w: World, c: nat)
    requires DoorInv(w) && c in w.calls && w.calls[c].phase.Cleared?
    requires (w.calls[c].run, w.calls[c].action) !in w.approvals
    ensures var v := DoCommit(w, c);
            && OneEach(v.jobs)
            && (forall run: RunId, action: ActionId :: Mirror(run, action) in v.jobs <==> (run, action) in v.approvals)
            && (forall run: RunId, action: ActionId :: DoorUpdate(run, action) in v.jobs <==> (run, action) in v.approvals)
  {
    hide CallOk, AnswerOk, ProperDecision, DecidedRows, NoDuplicates, OneEach, Enqueue;
    var mirror, update := Mirror(w.calls[c].run, w.calls[c].action), DoorUpdate(w.calls[c].run, w.calls[c].action);
    EnqueueKeeps(w.jobs, mirror);
    EnqueueKeeps(Enqueue(w.jobs, mirror), update);
  }

  lemma WinCalls(w: World, c: nat)
    requires DoorInv(w) && c in w.calls && w.calls[c].phase.Cleared?
    requires (w.calls[c].run, w.calls[c].action) !in w.approvals
    ensures var v := DoCommit(w, c);
            && (forall d :: d in v.calls ==> CallOk(v, d, v.calls[d]))
            && (forall i :: 0 <= i < |v.answers| ==> AnswerOk(v, v.answers[i]))
  {
    hide ProperDecision, DecidedRows, MayDecide, NoDuplicates, OneEach, Enqueue;
    var v := DoCommit(w, c);
    forall d | d in v.calls ensures CallOk(v, d, v.calls[d]) {
      assert CallOk(w, d, w.calls[d]);
    }
    forall i | 0 <= i < |v.answers| ensures AnswerOk(v, v.answers[i]) {
      assert AnswerOk(w, w.answers[i]);
    }
  }

  lemma WinKeepsDoor(w: World, c: nat)
    requires DoorInv(w) && c in w.calls && w.calls[c].phase.Cleared?
    requires (w.calls[c].run, w.calls[c].action) !in w.approvals
    ensures DoorInv(DoCommit(w, c))
  {
    hide CallOk, AnswerOk, ProperDecision;
    WinRows(w, c);
    WinJobs(w, c);
    WinCalls(w, c);
  }

  lemma WinKeeps(ent: Body, gh: Body, w: World, c: nat)
    requires Inv(ent, gh, w) && c in w.calls && w.calls[c].phase.Cleared?
    requires (w.calls[c].run, w.calls[c].action) !in w.approvals
    ensures Inv(ent, gh, DoCommit(w, c))
  {
    hide RailInv, DoorInv;
    RailUntouched(w, DoCommit(w, c));
    WinKeepsDoor(w, c);
  }

  lemma CommitKeeps(ent: Body, gh: Body, w: World, c: nat)
    requires Inv(ent, gh, w)
    ensures Inv(ent, gh, DoCommit(w, c))
  {
    hide RailInv, DoorInv, DocsInv;
    if c in w.calls && w.calls[c].phase.Cleared? {
      CallAt(ent, gh, w, c);
      if (w.calls[c].run, w.calls[c].action) in w.approvals {
        CallKeeps(ent, gh, w, DoCommit(w, c), c);
      } else {
        WinKeeps(ent, gh, w, c);
      }
    }
  }

  lemma TellKeeps(ent: Body, gh: Body, w: World, c: nat)
    requires Inv(ent, gh, w)
    ensures Inv(ent, gh, DoTell(w, c))
  {
    hide RailInv, DoorInv, DocsInv;
    if c in w.calls && (w.calls[c].phase == Won || w.calls[c].phase == Lost) {
      CallAt(ent, gh, w, c);
      var call := w.calls[c];
      if call.phase == Won {
        NewPassKeeps(ent, gh, w, call.run, AtHandoff);
        ReplyKeeps(ent, gh, NewPass(w, call.run, AtHandoff), c, Recorded(call.actor, call.channel));
      } else {
        var d := w.approvals[(call.run, call.action)];
        ReplyKeeps(ent, gh, w, c, AlreadyDecided(d.approver, d.channel));
      }
    }
  }

  // --- every step, every run ------------------------------------------------------------------------------------

  lemma CreateRunKeeps(ent: Body, gh: Body, w: World, run: RunId, requester: Option<Person>)
    requires Inv(ent, gh, w)
    ensures Inv(ent, gh, DoCreate(w, run, requester))
  {
    hide RailInv, DoorInv, DecidedRows, NoDuplicates, OneEach;
    if run !in w.runs {
      var v := DoCreate(w, run, requester);
      RailUntouched(w, v);
      DoorFrame(w, v);
    }
  }

  lemma DiscoverKeeps(ent: Body, gh: Body, w: World, p: nat, who: Option<Person>)
    requires Inv(ent, gh, w)
    ensures Inv(ent, gh, DoDiscover(w, p, who))
  {
    hide RailInv, DoorInv, DecidedRows, NoDuplicates, OneEach;
    var v := DoDiscover(w, p, who);
    if v != w {
      var pass := w.passes[p];
      PassAt(ent, gh, w, p);
      PutKeeps(ent, gh, w, p, pass.(pc := AtCompile));
      var w1 := Put(w, p, pass.(pc := AtCompile));
      OtherRow(w.audit, StageDone(pass.run, Stage.Discover));
      RailUntouched(w1, v);
      DoorFrame(w1, v);
    }
  }

  lemma FaultKeeps(ent: Body, gh: Body, w: World, github: bool, key: string, fault: Fault)
    requires Inv(ent, gh, w)
    ensures Inv(ent, gh, Do(w, InjectFault(github, key, fault)))
  {
    hide RailInv, DoorInv;
    AccessKeeps(ent, gh, w, Do(w, InjectFault(github, key, fault)));
  }

  lemma CallComesAndGoes(ent: Body, gh: Body, w: World, s: Step)
    requires Inv(ent, gh, w) && (s.Ask? || s.CrashCall?)
    ensures Inv(ent, gh, Do(w, s))
  {
    hide Inv;
    CallKeeps(ent, gh, w, Do(w, s), if s.Ask? then w.nextCall else s.c);
  }

  /** The stages of a pass. */
  lemma StageKeeps(ent: Body, gh: Body, w: World, s: Step)
    requires Inv(ent, gh, w)
    requires s.DiscoverSubject? || s.CompileCase? || s.GovernCase? || s.PlanCase? || s.HandOver? || s.ApplyDecisions? ||
             s.WriteStep? || s.ReconcileStep? || s.SaveWrites? || s.CheckStep? || s.FinishPass?
    ensures Inv(ent, gh, Do(w, s))
  {
    hide Inv, DoCreate, DoDiscover, DoCompile, DoGovern, DoPlan, DoHandOver, DoApplyDecisions, DoWrite, DoReconcile, DoCheck,
         DoFinish, DoReadAction, DoReadApproval, DoCommit, DoTell, DoSave;
    match s
    case DiscoverSubject(p, who) => DiscoverKeeps(ent, gh, w, p, who);
    case CompileCase(p, blockers) => CompileKeeps(ent, gh, w, p, blockers);
    case GovernCase(p, cs) => GovernKeeps(ent, gh, w, p, cs);
    case PlanCase(p, cs) => PlanKeeps(ent, gh, w, p, cs);
    case HandOver(p) => HandOverKeeps(ent, gh, w, p);
    case ApplyDecisions(p) => ApplyDecisionsKeeps(ent, gh, w, p);
    case WriteStep(p) => WriteStepKeeps(ent, gh, w, p);
    case ReconcileStep(p, readable) => ReconcileKeeps(ent, gh, w, p, readable);
    case SaveWrites(p) =>
      if p in w.passes && w.passes[p].pc == AllWritten {
        SaveStepKeeps(ent, gh, w, p, Stage.Execute, Checking(0));
      }
    case CheckStep(p, readable) => CheckKeeps(ent, gh, w, p, readable);
    case FinishPass(p) => FinishKeeps(ent, gh, w, p);
  }

  lemma StepKeeps(ent: Body, gh: Body, w: World, s: Step)
    requires Inv(ent, gh, w)
    ensures Inv(ent, gh, Do(w, s))
  {
    hide Inv, DoCreate, DoDiscover, DoCompile, DoGovern, DoPlan, DoHandOver, DoApplyDecisions, DoWrite, DoReconcile, DoCheck,
         DoFinish, DoReadAction, DoReadApproval, DoCommit, DoTell, DoSave;
    match s
    case CreateRun(run, requester) => CreateRunKeeps(ent, gh, w, run, requester);
    case BeginPass(run) => NewPassKeeps(ent, gh, w, run, AtDiscover);
    case ResumePass(run) => NewPassKeeps(ent, gh, w, run, AtHandoff);
    case CrashPass(p) => KillKeeps(ent, gh, w, p);
    case InjectFault(github, key, fault) => FaultKeeps(ent, gh, w, github, key, fault);
    case Ask(_, _, _, _, _, _) => CallComesAndGoes(ent, gh, w, s);
    case ReadAction(c) => ReadActionKeeps(ent, gh, w, c);
    case ReadApproval(c) => ReadApprovalKeeps(ent, gh, w, c);
    case CommitDecision(c) => CommitKeeps(ent, gh, w, c);
    case TellWinner(c) => TellKeeps(ent, gh, w, c);
    case CrashCall(c) => CallComesAndGoes(ent, gh, w, s);
    case _ => StageKeeps(ent, gh, w, s);
  }

  lemma {:induction false} RunKeeps(ent: Body, gh: Body, w: World, steps: seq<Step>)
    requires Inv(ent, gh, w)
    ensures Inv(ent, gh, Run(w, steps))
    decreases |steps|
  {
    hide Do, Inv;
    if steps != [] {
      StepKeeps(ent, gh, w, steps[0]);
      RunKeeps(ent, gh, Do(w, steps[0]), steps[1..]);
    }
  }

  lemma InitHolds(ent: Body, gh: Body)
    ensures Inv(ent, gh, Init(ent, gh))
  {
  }

  lemma Reached(ent: Body, gh: Body, steps: seq<Step>)
    ensures Inv(ent, gh, Run(Init(ent, gh), steps))
  {
    hide Inv, Init;
    InitHolds(ent, gh);
    RunKeeps(ent, gh, Init(ent, gh), steps);
  }

  // --- the theorems ---------------------------------------------------------------------------------------------

  /** In every interleaving every connector write is issued for an ALLOW action, or for a HOLD action with an approved
      decision for that run and action carrying the same parameters; never for a refusal, never with a blocker open. */
  lemma WritesAreAuthorised(ent: Body, gh: Body, steps: seq<Step>, i: nat)
    requires i < |Run(Init(ent, gh), steps).past.writes|
    ensures var w := Run(Init(ent, gh), steps);
            var r := w.past.writes[i];
            var k := (r.key.run, r.key.action);
            && r.blockers == [] && r.verdict != Some(REFUSE)
            && (r.verdict == Some(ALLOW) ||
                (r.verdict == Some(HOLD) && k in w.approvals && w.approvals[k].decision == Decision.Approve &&
                 w.approvals[k].params == r.key.params))
  {
    Reached(ent, gh, steps);
    assert Authorised(Run(Init(ent, gh), steps), Run(Init(ent, gh), steps).past.writes[i]);
  }

  /** Each document is its first body with each key's change made at most once, whatever passes overlapped, crashed,
      retried or timed out. */
  lemma ChangedAtMostOncePerKey(ent: Body, gh: Body, steps: seq<Step>)
    ensures var docs := Run(Init(ent, gh), steps).docs;
            && NoDuplicates(docs.ent.applied) && docs.ent.body == Replayed(ent, docs.ent.applied)
            && NoDuplicates(docs.gh.applied) && docs.gh.body == Replayed(gh, docs.gh.applied)
  {
    Reached(ent, gh, steps);
  }

  /** In any saved case: executed means the ledger holds the key or a reconciling read-back saw the state, and verified
      means that the verify read of a pass, no other read-back, found the intended state. */
  lemma OutcomesAreProven(ent: Body, gh: Body, steps: seq<Step>, run: RunId, i: nat)
    requires var w := Run(Init(ent, gh), steps); run in w.capsules && i < |w.capsules[run].actions|
    ensures var w := Run(Init(ent, gh), steps);
            var a := w.capsules[run].actions[i];
            var key := Key(run, a.id, a.params);
            && (a.state == Executed ==> key in DocOf(w.docs, a.params).ledger || key in w.past.seen)
            && (key in w.past.seen ==> ReadBack(w.past.seen[key], a.params) == Seen(true))
            && (a.state == Verified ==> key in w.past.checks && w.past.checks[key].pass < w.nextPass &&
                                        ReadBack(w.past.checks[key].body, a.params) == Seen(true))
            && (a.verdict == Some(REFUSE) ==> a.state == Refused)
  {
    Reached(ent, gh, steps);
    var w := Run(Init(ent, gh), steps);
    assert CaseOk(w, w.capsules[run]);
    assert ActionOk(w, run, w.capsules[run].actions[i]);
  }

  lemma OneWinner(w: World, run: RunId, action: ActionId)
    requires DoorInv(w)
    ensures var k := (run, action);
            && (forall i, j :: 0 <= i < j < |w.answers| && w.answers[i].result.Recorded? && w.answers[j].result.Recorded?
                  ==> (w.answers[i].run, w.answers[i].action) != (w.answers[j].run, w.answers[j].action))
            && (forall i :: 0 <= i < |w.answers| && (w.answers[i].run, w.answers[i].action) == k &&
                            !w.answers[i].result.Rejected?
                  ==> k in w.approvals && w.answers[i].result.who == w.approvals[k].approver &&
                      w.answers[i].result.via == w.approvals[k].channel)
            && |DecidedRows(w.audit, k)| == (if k in w.approvals then 1 else 0)
            && multiset(w.jobs)[Mirror(run, action)] == (if k in w.approvals then 1 else 0)
            && multiset(w.jobs)[DoorUpdate(run, action)] == (if k in w.approvals then 1 else 0)
  {
    hide DecidedRows;
    forall i, j | 0 <= i < j < |w.answers| && w.answers[i].result.Recorded? && w.answers[j].result.Recorded?
      ensures (w.answers[i].run, w.answers[i].action) != (w.answers[j].run, w.answers[j].action)
    {
      assert AnswerOk(w, w.answers[i]) && AnswerOk(w, w.answers[j]);
    }
    forall i | 0 <= i < |w.answers| ensures AnswerOk(w, w.answers[i]) {
    }
    OneEachOnce(w.jobs);
    OccursOnce(w.jobs, Mirror(run, action));
    OccursOnce(w.jobs, DoorUpdate(run, action));
  }

  /** First decision wins: for one action all answers name one winner, at most one answer is `recorded`, and there is
      exactly one decision row and one job of each kind when it is decided, and none before. */
  lemma FirstDecisionWins(ent: Body, gh: Body, steps: seq<Step>, run: RunId, action: ActionId)
    ensures var w := Run(Init(ent, gh), steps);
            var k := (run, action);
            && (forall i, j :: 0 <= i < j < |w.answers| && w.answers[i].result.Recorded? && w.answers[j].result.Recorded?
                  ==> (w.answers[i].run, w.answers[i].action) != (w.answers[j].run, w.answers[j].action))
            && (forall i :: 0 <= i < |w.answers| && (w.answers[i].run, w.answers[i].action) == k &&
                            !w.answers[i].result.Rejected?
                  ==> k in w.approvals && w.answers[i].result.who == w.approvals[k].approver &&
                      w.answers[i].result.via == w.approvals[k].channel)
            && |DecidedRows(w.audit, k)| == (if k in w.approvals then 1 else 0)
            && multiset(w.jobs)[Mirror(run, action)] == (if k in w.approvals then 1 else 0)
            && multiset(w.jobs)[DoorUpdate(run, action)] == (if k in w.approvals then 1 else 0)
  {
    hide DoorInv, RailInv, DocsInv, Run, Init, DecidedRows;
    Reached(ent, gh, steps);
    OneWinner(Run(Init(ent, gh), steps), run, action);
  }

  /** Whoever is recorded as deciding was the approver named on the awaiting action that was read, decided exactly its
      parameters, and neither raised the run nor benefits from it as read. */
  lemma DecidersAreNamed(ent: Body, gh: Body, steps: seq<Step>, k: (RunId, ActionId))
    requires k in Run(Init(ent, gh), steps).approvals
    ensures var w := Run(Init(ent, gh), steps);
            var d := w.approvals[k];
            && d.row.state == Awaiting && d.row.approver == Some(d.approver) && d.row.params == d.params
            && k.0 in w.runs && w.runs[k.0].requestedBy.Some? && w.runs[k.0].requestedBy != Some(d.approver)
            && d.info.beneficiary.Some? && d.info.beneficiary != Some(d.approver)
  {
    Reached(ent, gh, steps);
    assert ProperDecision(Run(Init(ent, gh), steps), k, Run(Init(ent, gh), steps).approvals[k]);
  }

  /** No interleaving makes an action raise IllegalTransition. */
  lemma NoActionMoveIsIllegal(ent: Body, gh: Body, steps: seq<Step>)
    ensures !Run(Init(ent, gh), steps).past.illegal
  {
    Reached(ent, gh, steps);
  }

  /** The decision under k stays, and so does every job. */
  ghost predicate DecisionKept(w: World, v: World, k: (RunId, ActionId)) {
    (k in w.approvals ==> k in v.approvals && v.approvals[k] == w.approvals[k]) && w.jobs <= v.jobs
  }

  lemma EnqueueGrows(jobs: seq<JobRow>, j: JobRow)
    ensures jobs <= Enqueue(jobs, j)
  {
  }

  lemma {:induction false} DispatchGrows(jobs: seq<JobRow>, run: RunId, actions: seq<ActionView>)
    ensures jobs <= Dispatched(jobs, run, actions)
    decreases |actions|
  {
    hide Enqueue, Waits;
    if actions != [] {
      EnqueueGrows(jobs, AskFor(run, actions[0]));
      DispatchGrows(if Waits(actions[0]) then Enqueue(jobs, AskFor(run, actions[0])) else jobs, run, actions[1..]);
    }
  }

  lemma AdvanceApprovals(w: World, p: nat, i: nat, to: ActionState, pc: Pc, k: (RunId, ActionId))
    requires p in w.passes && i < |w.passes[p].kase.actions|
    ensures DecisionKept(w, Advance(w, p, i, to, pc), k)
  {
    hide CanMove;
  }

  /** A connector access leaves the approvals and the passes alone. */
  lemma AccessApprovals(w: World, p: nat, r: WriteRecord, readable: bool)
    ensures var v := Issue(w, r).0; v.approvals == w.approvals && v.passes == w.passes && v.jobs == w.jobs
    ensures var v := Look(w, r.key, readable).0; v.approvals == w.approvals && v.passes == w.passes && v.jobs == w.jobs
    ensures var v := Judge(w, p, r.key, readable).0; v.approvals == w.approvals && v.passes == w.passes && v.jobs == w.jobs
  {
    hide Write, ReadBack, DocOf, WithDoc;
  }

  lemma WriteApprovals(w: World, p: nat, k: (RunId, ActionId))
    ensures DecisionKept(w, DoWrite(w, p), k)
  {
    hide Issue, Advance, IsExecutable, CanMove;
    if p in w.passes && w.passes[p].pc.Writing? && w.passes[p].pc.i < |w.passes[p].kase.actions| {
      var pass := w.passes[p];
      var a := pass.kase.actions[pass.pc.i];
      var r := WriteRecord(Key(pass.run, a.id, a.params), a.verdict, a.approver, pass.kase.blockers);
      AccessApprovals(w, p, r, true);
      var (w1, out) := Issue(w, r);
      match AfterWrite(out, pass.pc.attempt, MAX_ATTEMPTS) {
        case Finish(s) => AdvanceApprovals(w1, p, pass.pc.i, s, Writing(pass.pc.i + 1, 1), k);
        case _ =>
      }
    }
  }

  lemma ReconcileApprovals(w: World, p: nat, readable: bool, k: (RunId, ActionId))
    ensures DecisionKept(w, DoReconcile(w, p, readable), k)
  {
    hide Look, Advance;
    if p in w.passes && w.passes[p].pc.Reconciling? && w.passes[p].pc.i < |w.passes[p].kase.actions| {
      var pass := w.passes[p];
      var a := pass.kase.actions[pass.pc.i];
      AccessApprovals(w, p, WriteRecord(Key(pass.run, a.id, a.params), None, None, []), readable);
      var (w1, r) := Look(w, Key(pass.run, a.id, a.params), readable);
      match AfterReadback(r, pass.pc.attempt, MAX_ATTEMPTS) {
        case Finish(s) => AdvanceApprovals(w1, p, pass.pc.i, s, Writing(pass.pc.i + 1, 1), k);
        case _ =>
      }
    }
  }

  lemma SaveApprovals(w: World, p: nat, stage: Stage, pc: Pc, k: (RunId, ActionId))
    requires p in w.passes
    ensures DecisionKept(w, DoSave(w, p, stage, pc), k)
  {
    hide Synced, CanSync;
  }

  lemma CheckApprovals(w: World, p: nat, readable: bool, k: (RunId, ActionId))
    ensures DecisionKept(w, DoCheck(w, p, readable), k)
  {
    hide Judge, Advance, DoSave, Verifiable;
    if p in w.passes && w.passes[p].pc.Checking? {
      var pass := w.passes[p];
      if pass.pc.i < |pass.kase.actions| {
        var a := pass.kase.actions[pass.pc.i];
        AccessApprovals(w, p, WriteRecord(Key(pass.run, a.id, a.params), None, None, []), readable);
        var (w1, r) := Judge(w, p, Key(pass.run, a.id, a.params), readable);
        AdvanceApprovals(w1, p, pass.pc.i, VerifiedState(r), Checking(pass.pc.i + 1), k);
      } else {
        SaveApprovals(w, p, Stage.Verify, AllChecked, k);
      }
    }
  }

  lemma ApplyApprovals(w: World, p: nat, k: (RunId, ActionId))
    ensures DecisionKept(w, DoApplyDecisions(w, p), k)
  {
    hide RaisesOnDecision, AfterDecisions, DecidedIds, CanSync, Synced, Dispatched;
    if p in w.passes {
      DispatchGrows(w.jobs, w.passes[p].run, AfterDecisions(w.approvals, w.passes[p].kase).actions);
    }
  }

  lemma GovernApprovals(w: World, p: nat, cs: seq<Candidate>, blockers: seq<string>, k: (RunId, ActionId))
    ensures DecisionKept(w, DoCompile(w, p, blockers), k) && DecisionKept(w, DoGovern(w, p, cs), k)
  {
    hide StampAll, Upserted, WellFormed;
  }

  lemma PlanApprovals(w: World, p: nat, cs: seq<Candidate>, k: (RunId, ActionId))
    ensures DecisionKept(w, DoPlan(w, p, cs), k)
  {
    hide StampAll, Upserted, SortBy, PlanKey, WellFormed;
  }

  lemma EndsApprovals(w: World, p: nat, k: (RunId, ActionId))
    ensures DecisionKept(w, DoHandOver(w, p), k) && DecisionKept(w, DoFinish(w, p), k)
  {
    hide ReceiptOf, Enqueue;
    if p in w.passes {
      EnqueueGrows(w.jobs, ReceiptOf(w.passes[p].kase));
    }
  }

  lemma DecisionStays(w: World, s: Step, k: (RunId, ActionId))
    ensures DecisionKept(w, Do(w, s), k)
  {
    hide DoCompile, DoGovern, DoPlan, DoHandOver, DoApplyDecisions, DoSave, DoFinish, DoReconcile, DoWrite, DoCheck, DoReadAction,
         DoReadApproval, DoCommit, DoTell;
    match s {
      case CompileCase(p, blockers) => GovernApprovals(w, p, [], blockers, k);
      case GovernCase(p, cs) => GovernApprovals(w, p, cs, [], k);
      case PlanCase(p, cs) => PlanApprovals(w, p, cs, k);
      case HandOver(p) => EndsApprovals(w, p, k);
      case FinishPass(p) => EndsApprovals(w, p, k);
      case ApplyDecisions(p) => ApplyApprovals(w, p, k);
      case SaveWrites(p) =>
        if p in w.passes {
          SaveApprovals(w, p, Stage.Execute, Checking(0), k);
        }
      case ReconcileStep(p, readable) => ReconcileApprovals(w, p, readable, k);
      case WriteStep(p) => WriteApprovals(w, p, k);
      case CheckStep(p, readable) => CheckApprovals(w, p, readable, k);
      case ReadAction(c) => ReadApprovals(w, c, k);
      case ReadApproval(c) => ReadApprovals(w, c, k);
      case CommitDecision(c) => CommitApprovals(w, c, k);
      case TellWinner(c) => TellApprovals(w, c, k);
      case _ => OutsideApprovals(w, s, k);
    }
  }

  lemma OutsideApprovals(w: World, s: Step, k: (RunId, ActionId))
    requires s.CreateRun? || s.BeginPass? || s.DiscoverSubject? || s.ResumePass? || s.CrashPass? || s.InjectFault? ||
             s.Ask? || s.CrashCall?
    ensures DecisionKept(w, Do(w, s), k)
  {
  }

  lemma ReplyApprovals(w: World, c: nat, result: DecisionResult, k: (RunId, ActionId))
    requires c in w.calls
    ensures DecisionKept(w, Reply(w, c, result), k) && DecisionKept(w, Reject(w, c), k)
  {
  }

  lemma ReadApprovals(w: World, c: nat, k: (RunId, ActionId))
    ensures DecisionKept(w, DoReadAction(w, c), k) && DecisionKept(w, DoReadApproval(w, c), k)
  {
    hide MayDecide, Reply, Reject;
    if c in w.calls {
      var call := w.calls[c];
      var key := (call.run, call.action);
      ReplyApprovals(w, c, Rejected, k);
      if key in w.approvals {
        ReplyApprovals(w, c, AlreadyDecided(w.approvals[key].approver, w.approvals[key].channel), k);
      }
    }
  }

  lemma CommitApprovals(w: World, c: nat, k: (RunId, ActionId))
    ensures DecisionKept(w, DoCommit(w, c), k)
  {
    hide Enqueue;
    if c in w.calls {
      var mirror, update := Mirror(w.calls[c].run, w.calls[c].action), DoorUpdate(w.calls[c].run, w.calls[c].action);
      EnqueueGrows(w.jobs, mirror);
      EnqueueGrows(Enqueue(w.jobs, mirror), update);
    }
  }

  lemma TellApprovals(w: World, c: nat, k: (RunId, ActionId))
    ensures DecisionKept(w, DoTell(w, c), k)
  {
    hide Reply;
    if c in w.calls {
      var call := w.calls[c];
      var key := (call.run, call.action);
      ReplyApprovals(NewPass(w, call.run, AtHandoff), c, Recorded(call.actor, call.channel), k);
      if key in w.approvals {
        ReplyApprovals(w, c, AlreadyDecided(w.approvals[key].approver, w.approvals[key].channel), k);
      }
    }
  }

  lemma {:induction false} JobsStay(w: World, steps: seq<Step>)
    ensures w.jobs <= Run(w, steps).jobs
    decreases |steps|
  {
    hide Do;
    if steps != [] {
      DecisionStays(w, steps[0], (0, ""));
      JobsStay(Do(w, steps[0]), steps[1..]);
    }
  }

  lemma {:induction false} DecisionsStay(w: World, steps: seq<Step>, k: (RunId, ActionId))
    requires k in w.approvals
    ensures k in Run(w, steps).approvals && Run(w, steps).approvals[k] == w.approvals[k]
    decreases |steps|
  {
    hide Do;
    if steps != [] {
      DecisionStays(w, steps[0], k);
      DecisionsStay(Do(w, steps[0]), steps[1..], k);
    }
  }

  /** What a door answers, field by field: a decision is recorded exactly when a known person, named on an action that still
      awaits with exactly these parameters and that nobody has decided, is neither who raised the run nor who benefits from
      it, both being known. A decided action is answered with its decision, and everything else is rejected. */
  lemma AnswerMeans(rows: map<(RunId, ActionId), ActionView>, approvals: map<(RunId, ActionId), Approval>, run: RunId,
                    action: ActionId, params: Params, channel: string, actor: Option<Person>, decision: Decision, info: RunInfo)
    ensures var k, r := (run, action), DoorAnswer(rows, approvals, run, action, params, channel, actor, decision, info);
            && (r == Recorded(actor.GetOr(""), channel) <==>
                  && actor.Some? && k in rows && k !in approvals
                  && rows[k].state == Awaiting && rows[k].params == params && rows[k].approver == actor
                  && info.requestedBy.Some? && info.requestedBy.value != "" && info.requestedBy != actor
                  && info.beneficiary.Some? && info.beneficiary.value != "" && info.beneficiary != actor)
            && (r.Recorded? ==> r == Recorded(actor.GetOr(""), channel))
            && (r.AlreadyDecided? <==> actor.Some? && k in rows && k in approvals)
            && (r.AlreadyDecided? ==> r == AlreadyDecided(approvals[k].approver, approvals[k].channel))
  {
  }
}
