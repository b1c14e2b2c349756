/** The runner's uninterrupted pass is one of the interleavings of the concurrent protocol. What holds in every reachable
    world of the protocol therefore holds of the runner's passes too. */
module Refinement {
  import opened Models
  import opened Order
  import opened Connector
  import opened Execute
  import opened Protocol
  import opened Steps
  import opened GovernPlan
  import opened PassSpec
  import opened Rail

  /** Nothing is different but the passes, the documents and the histories of connector accesses. */
  ghost predicate Outside(w: World, v: World) {
    && v.runs == w.runs && v.capsules == w.capsules && v.rows == w.rows && v.approvals == w.approvals
    && v.audit == w.audit && v.jobs == w.jobs && v.calls == w.calls && v.answers == w.answers && v.past.illegal == w.past.illegal
  }

  /** ... and of the passes only pass p. */
  ghost predicate Beside(w: World, v: World, p: nat) {
    Outside(w, v) && p in v.passes && v.passes == w.passes[p := v.passes[p]]
  }

  /** Action i of the pass becomes a state, and the pass goes on with the next one. */
  function Moved(pass: Pass, i: nat, to: ActionState, pc: Pc): Pass
    requires i < |pass.kase.actions|
  {
    var a := pass.kase.actions[i];
    Pass(pass.run, pc, pass.kase.(actions := pass.kase.actions[i := a.(state := to)]), pass.touched + {a.id})
  }

  function ActionAt(w: World, p: nat, i: nat): ActionView
    requires p in w.passes && i < |w.passes[p].kase.actions|
  {
    w.passes[p].kase.actions[i]
  }

  function KeyAt(w: World, p: nat, i: nat): Key
    requires p in w.passes && i < |w.passes[p].kase.actions|
  {
    Key(w.passes[p].run, ActionAt(w, p, i).id, ActionAt(w, p, i).params)
  }

  /** Pass p is about to write action i for the given time, and may. */
  ghost predicate AtWrite(w: World, p: nat, i: nat, attempt: nat) {
    && p in w.passes && i < |w.passes[p].kase.actions| && w.passes[p].pc == Writing(i, attempt)
    && 1 <= attempt <= MAX_ATTEMPTS && Lawful(ActionAt(w, p, i)) && IsExecutable(ActionAt(w, p, i))
  }

  /** v is w after an attempt that left the document as d and decided `next`. */
  ghost predicate Attempted(w: World, v: World, p: nat, i: nat, attempt: nat, d: Doc, next: Next)
    requires AtWrite(w, p, i, attempt)
  {
    && Beside(w, v, p)
    && v.docs == WithDoc(w.docs, ActionAt(w, p, i).params, d)
    && match next
       case Finish(s) => v.passes[p] == Moved(w.passes[p], i, s, Writing(i + 1, 1))
       case Retry => v.passes[p] == w.passes[p].(pc := Writing(i, attempt + 1))
       case Reconcile => v.passes[p] == w.passes[p].(pc := Reconciling(i, attempt))
  }

  lemma MovesOn(a: ActionView, to: ActionState)
    requires Lawful(a) && IsExecutable(a) && to in {Executed, Failed, Unknown}
    ensures CanMove(a, to)
  {
  }

  lemma IssueFrame(w: World, r: WriteRecord)
    ensures var (d, out) := Connector.Write(DocOf(w.docs, r.key.params), r.key);
            var (v, o) := Issue(w, r);
            Outside(w, v) && v.passes == w.passes && v.docs == WithDoc(w.docs, r.key.params, d) && o == out
  {
    hide Connector.Write, WithDoc, DocOf;
  }

  lemma LookFrame(w: World, key: Key)
    ensures var (v, r) := Look(w, key, true);
            Outside(w, v) && v.passes == w.passes && v.docs == w.docs && r == ReadBack(DocOf(w.docs, key.params).body, key.params)
  {
    hide ReadBack, DocOf;
  }

  lemma JudgeFrame(w: World, p: nat, key: Key)
    ensures var (v, r) := Judge(w, p, key, true);
            Outside(w, v) && v.passes == w.passes && v.docs == w.docs && r == ReadBack(DocOf(w.docs, key.params).body, key.params)
  {
    hide ReadBack, DocOf;
  }

  lemma PutFrame(w: World, p: nat, pass: Pass)
    ensures var v := Put(w, p, pass); Outside(w, v) && v.docs == w.docs && v.passes == w.passes[p := pass]
  {
  }

  lemma AdvanceFrame(w: World, p: nat, i: nat, to: ActionState, pc: Pc)
    requires p in w.passes && i < |w.passes[p].kase.actions| && CanMove(w.passes[p].kase.actions[i], to)
    ensures var v := Advance(w, p, i, to, pc);
            Outside(w, v) && v.docs == w.docs && v.passes == w.passes[p := Moved(w.passes[p], i, to, pc)]
  {
    hide CanMove;
  }

  lemma WriteAttempt(w: World, p: nat, i: nat, attempt: nat)
    requires AtWrite(w, p, i, attempt)
    ensures var (d, out) := Connector.Write(DocOf(w.docs, ActionAt(w, p, i).params), KeyAt(w, p, i));
            Attempted(w, Do(w, WriteStep(p)), p, i, attempt, d, AfterWrite(out, attempt, MAX_ATTEMPTS))
  {
    hide Connector.Write, CanMove, Lawful, IsExecutable, WithDoc, DocOf, Issue, Put, Advance, Moved;
    var pass, a := w.passes[p], ActionAt(w, p, i);
    var (d, out) := Connector.Write(DocOf(w.docs, a.params), KeyAt(w, p, i));
    var r := WriteRecord(KeyAt(w, p, i), a.verdict, a.approver, pass.kase.blockers);
    IssueFrame(w, r);
    var w1 := Issue(w, r).0;
    match AfterWrite(out, attempt, MAX_ATTEMPTS) {
      case Finish(s) =>
        MovesOn(a, s);
        AdvanceFrame(w1, p, i, s, Writing(i + 1, 1));
      case Retry => PutFrame(w1, p, pass.(pc := Writing(i, attempt + 1)));
      case Reconcile => PutFrame(w1, p, pass.(pc := Reconciling(i, attempt)));
    }
  }

  lemma DocsAgain(docs: Docs, p: Params, d: Doc, e: Doc)
    ensures DocOf(WithDoc(docs, p, d), p) == d && WithDoc(WithDoc(docs, p, d), p, e) == WithDoc(docs, p, e)
  {
  }

  lemma ReadBackAttempt(w: World, w1: World, p: nat, i: nat, attempt: nat, d: Doc)
    requires AtWrite(w, p, i, attempt) && Attempted(w, w1, p, i, attempt, d, Reconcile)
    ensures Attempted(w, Do(w1, ReconcileStep(p, true)), p, i, attempt, d,
                      AfterReadback(ReadBack(d.body, KeyAt(w, p, i).params), attempt, MAX_ATTEMPTS))
  {
    hide ReadBack, CanMove, Lawful, IsExecutable, WithDoc, DocOf, Look, Put, Advance, Connector.Write;
    var key := KeyAt(w, p, i);
    DocsAgain(w.docs, key.params, d, d);
    LookFrame(w1, key);
    var w2 := Look(w1, key, true).0;
    match AfterReadback(ReadBack(d.body, key.params), attempt, MAX_ATTEMPTS) {
      case Finish(s) =>
        MovesOn(ActionAt(w, p, i), s);
        AdvanceFrame(w2, p, i, s, Writing(i + 1, 1));
      case Retry => PutFrame(w2, p, w.passes[p].(pc := Writing(i, attempt + 1)));
      case Reconcile =>
    }
  }

  /** One turn of the retry loop is one or two steps of the protocol. */
  lemma TurnSteps(w: World, p: nat, i: nat, attempt: nat) returns (steps: seq<Step>)
    requires AtWrite(w, p, i, attempt)
    ensures var (d, out) := Connector.Write(DocOf(w.docs, ActionAt(w, p, i).params), KeyAt(w, p, i));
            Attempted(w, Protocol.Run(w, steps), p, i, attempt, d, NextStep(d, KeyAt(w, p, i), out, attempt, MAX_ATTEMPTS))
  {
    hide Connector.Write, ReadBack, Attempted, Do, WithDoc, DocOf, Lawful, IsExecutable;
    var (d, out) := Connector.Write(DocOf(w.docs, ActionAt(w, p, i).params), KeyAt(w, p, i));
    WriteAttempt(w, p, i, attempt);
    if AfterWrite(out, attempt, MAX_ATTEMPTS).Reconcile? {
      ReadBackAttempt(w, Do(w, WriteStep(p)), p, i, attempt, d);
      TwoSteps(w, WriteStep(p), ReconcileStep(p, true));
      steps := [WriteStep(p), ReconcileStep(p, true)];
    } else {
      OneStep(w, WriteStep(p));
      steps := [WriteStep(p)];
    }
  }

  lemma BesideAgain(w: World, v: World, x: World, p: nat)
    requires Beside(w, v, p) && Beside(v, x, p)
    ensures Beside(w, x, p)
  {
  }

  /** From one write attempt, the protocol's steps reach what the retry loop computes. */
  lemma {:induction false} WriteSettles(w: World, p: nat, i: nat, attempt: nat) returns (steps: seq<Step>)
    requires AtWrite(w, p, i, attempt)
    ensures var (d, o) := ExecuteFrom(DocOf(w.docs, ActionAt(w, p, i).params), KeyAt(w, p, i), attempt, MAX_ATTEMPTS);
            Attempted(w, Protocol.Run(w, steps), p, i, attempt, d, Finish(o.state))
    decreases MAX_ATTEMPTS - attempt
  {
    hide Connector.Write, ReadBack, NextStep, WithDoc, DocOf, Lawful, IsExecutable, Beside;
    var (d, out) := Connector.Write(DocOf(w.docs, ActionAt(w, p, i).params), KeyAt(w, p, i));
    steps := TurnSteps(w, p, i, attempt);
    if NextStep(d, KeyAt(w, p, i), out, attempt, MAX_ATTEMPTS).Retry? {
      var v := Protocol.Run(w, steps);
      assert p in v.passes by { PassStays(w, v, p); }
      var more := WriteSettles(v, p, i, attempt + 1);
      RunConcat(w, steps, more);
      DocsAgain(w.docs, ActionAt(w, p, i).params, d, d);
      var e := ExecuteFrom(d, KeyAt(w, p, i), attempt + 1, MAX_ATTEMPTS).0;
      DocsAgain(w.docs, ActionAt(w, p, i).params, d, e);
      BesideAgain(w, v, Protocol.Run(v, more), p);
      steps := steps + more;
    }
  }

  lemma PassStays(w: World, v: World, p: nat)
    requires Beside(w, v, p)
    ensures p in v.passes
  {
  }

  // --- all writes, all checks -----------------------------------------------------------------------------------

  /** Pass p as it stands, with other actions from i on, in another place. */
  function WithTail(pass: Pass, i: nat, tail: seq<ActionView>, pc: Pc, touched: set<ActionId>): Pass
    requires i <= |pass.kase.actions|
  {
    Pass(pass.run, pc, pass.kase.(actions := pass.kase.actions[..i] + tail), touched)
  }

  lemma TailMoves(pass: Pass, i: nat, x: ActionView, tail: seq<ActionView>, pc: Pc, here: Pc, touched: set<ActionId>, mid: set<ActionId>)
    requires i < |pass.kase.actions|
    ensures WithTail(pass.(pc := here, kase := pass.kase.(actions := pass.kase.actions[i := x]), touched := mid), i + 1, tail, pc, touched) ==
            WithTail(pass, i, [x] + tail, pc, touched)
  {
    var s := pass.kase.actions;
    assert s[i := x][..i + 1] + tail == s[..i] + ([x] + tail);
  }

  /** The pass stands before action i; what is left to do is its tail. */
  ghost predicate Before(w: World, p: nat, i: nat, pc: Pc) {
    && p in w.passes && i <= |w.passes[p].kase.actions| && w.passes[p].pc == pc
    && AllLawful(w.passes[p].kase.actions[i..])
  }

  /** v is w with the pass gone through its tail. */
  ghost predicate Through(w: World, v: World, p: nat, i: nat, docs: Docs, tail: seq<ActionView>, pc: Pc, ids: set<ActionId>)
    requires p in w.passes && i <= |w.passes[p].kase.actions|
  {
    Beside(w, v, p) && v.docs == docs && v.passes[p] == WithTail(w.passes[p], i, tail, pc, w.passes[p].touched + ids)
  }

  lemma NothingLeft(w: World, v: World, p: nat, i: nat, pc: Pc)
    requires p in w.passes && i == |w.passes[p].kase.actions|
    requires Beside(w, v, p) && v.docs == w.docs && v.passes[p] == w.passes[p].(pc := pc)
    ensures Through(w, v, p, i, w.docs, [], pc, {})
  {
    var s := w.passes[p].kase.actions;
    assert s[..i] + [] == s && w.passes[p].touched + {} == w.passes[p].touched;
  }

  lemma ThroughFirst(w: World, v: World, x: World, p: nat, i: nat, docs: Docs, first: ActionView, here: Pc, mine: set<ActionId>,
                     tail: seq<ActionView>, pc: Pc, ids: set<ActionId>)
    requires p in w.passes && i < |w.passes[p].kase.actions| && Beside(w, v, p)
    requires var pass := w.passes[p];
             v.passes[p] == pass.(pc := here, kase := pass.kase.(actions := pass.kase.actions[i := first]), touched := pass.touched + mine)
    requires i + 1 <= |v.passes[p].kase.actions| && Through(v, x, p, i + 1, docs, tail, pc, ids)
    ensures Through(w, x, p, i, docs, [first] + tail, pc, mine + ids)
  {
    var pass := w.passes[p];
    BesideAgain(w, v, x, p);
    TailMoves(pass, i, first, tail, pc, here, pass.touched + (mine + ids), pass.touched + mine);
    assert (pass.touched + mine) + ids == pass.touched + (mine + ids);
  }

  lemma {:induction false} WritesSettle(w: World, p: nat, i: nat) returns (steps: seq<Step>)
    requires Before(w, p, i, Writing(i, 1))
    ensures var rest := w.passes[p].kase.actions[i..];
            var (d, tail) := ExecutedAll(w.docs, w.passes[p].run, rest);
            Through(w, Protocol.Run(w, steps), p, i, d, tail, AllWritten, WrittenIds(rest))
    decreases if p in w.passes then |w.passes[p].kase.actions| - i else 0
  {
    hide Lawful, IsExecutable, WithDoc, DocOf, Through, ExecuteFrom, CanMove, Do, Moved;
    var pass := w.passes[p];
    var rest := pass.kase.actions[i..];
    if i == |pass.kase.actions| {
      steps := [WriteStep(p)];
      OneStep(w, WriteStep(p));
      WriteStepEnds(w, p, i);
      NothingLeft(w, Do(w, WriteStep(p)), p, i, AllWritten);
      assert rest == [] && WrittenIds(rest) == {};
    } else {
      var first := FirstWrite(w, p, i);
      var v := Protocol.Run(w, first);
      var a, x := rest[0], ExecutedOne(w.docs, pass.run, rest[0]);
      assert rest[1..] == pass.kase.actions[i + 1..];
      assert v.passes[p].kase.actions[i + 1..] == rest[1..];
      var more := WritesSettle(v, p, i + 1);
      RunConcat(w, first, more);
      steps := first + more;
      IdsSplit(rest);
      var (d, tail) := ExecutedAll(v.docs, pass.run, rest[1..]);
      ThroughFirst(w, v, Protocol.Run(v, more), p, i, d, x.1, Writing(i + 1, 1), if IsExecutable(a) then {a.id} else {},
                   tail, AllWritten, WrittenIds(rest[1..]));
    }
  }

  lemma WriteStepEnds(w: World, p: nat, i: nat)
    requires p in w.passes && w.passes[p].pc == Writing(i, 1) && i == |w.passes[p].kase.actions|
    ensures var v := Do(w, WriteStep(p)); Beside(w, v, p) && v.docs == w.docs && v.passes[p] == w.passes[p].(pc := AllWritten)
  {
  }

  /** One action of the plan: skipped, or written. */
  lemma FirstWrite(w: World, p: nat, i: nat) returns (steps: seq<Step>)
    requires Before(w, p, i, Writing(i, 1)) && i < |w.passes[p].kase.actions|
    ensures var pass := w.passes[p];
            var a := pass.kase.actions[i];
            var x := ExecutedOne(w.docs, pass.run, a);
            var v := Protocol.Run(w, steps);
            && Beside(w, v, p) && v.docs == x.0
            && v.passes[p] == pass.(pc := Writing(i + 1, 1), kase := pass.kase.(actions := pass.kase.actions[i := x.1]),
                                    touched := pass.touched + if IsExecutable(a) then {a.id} else {})
  {
    var pass := w.passes[p];
    var a := pass.kase.actions[i];
    assert pass.kase.actions[i..][0] == a;
    if IsExecutable(a) {
      hide Do, ExecuteFrom, WithDoc, DocOf, IsExecutable, Lawful;
      steps := WriteSettles(w, p, i, 1);
      OutcomeIsAMove(DocOf(w.docs, a.params), KeyAt(w, p, i), 1, MAX_ATTEMPTS);
      MovesOn(a, ExecuteFrom(DocOf(w.docs, a.params), KeyAt(w, p, i), 1, MAX_ATTEMPTS).1.state);
    } else {
      steps := [WriteStep(p)];
      OneStep(w, WriteStep(p));
      assert pass.kase.actions[i := a] == pass.kase.actions && pass.touched + {} == pass.touched;
    }
  }

  lemma {:induction false} ChecksSettle(w: World, p: nat, i: nat) returns (steps: seq<Step>)
    requires Before(w, p, i, Checking(i))
    ensures var rest := w.passes[p].kase.actions[i..];
            var v := Protocol.Run(w, steps);
            && Through(w, v, p, i, w.docs, VerifiedAll(w.docs, rest), Checking(|w.passes[p].kase.actions|), CheckedIds(rest))
    decreases if p in w.passes then |w.passes[p].kase.actions| - i else 0
  {
    hide Lawful, Through, Do, VerifyOne, Verifiable;
    var pass := w.passes[p];
    var rest := pass.kase.actions[i..];
    if i == |pass.kase.actions| {
      steps := [];
      NothingLeft(w, w, p, i, Checking(i));
      assert rest == [] && CheckedIds(rest) == {};
    } else {
      FirstCheck(w, p, i);
      OneStep(w, CheckStep(p, true));
      var v := Do(w, CheckStep(p, true));
      var a := rest[0];
      assert rest[1..] == pass.kase.actions[i + 1..];
      assert v.passes[p].kase.actions[i + 1..] == rest[1..];
      var more := ChecksSettle(v, p, i + 1);
      RunConcat(w, [CheckStep(p, true)], more);
      steps := [CheckStep(p, true)] + more;
      IdsSplit(rest);
      ThroughFirst(w, v, Protocol.Run(v, more), p, i, v.docs, VerifyOne(w.docs, a), Checking(i + 1),
                   if Verifiable(a.state) then {a.id} else {}, VerifiedAll(v.docs, rest[1..]),
                   Checking(|pass.kase.actions|), CheckedIds(rest[1..]));
    }
  }

  lemma FirstCheck(w: World, p: nat, i: nat)
    requires Before(w, p, i, Checking(i)) && i < |w.passes[p].kase.actions|
    ensures var pass := w.passes[p];
            var a := pass.kase.actions[i];
            var v := Do(w, CheckStep(p, true));
            && Beside(w, v, p) && v.docs == w.docs
            && v.passes[p] == pass.(pc := Checking(i + 1),
                                    kase := pass.kase.(actions := pass.kase.actions[i := VerifyOne(w.docs, a)]),
                                    touched := pass.touched + if Verifiable(a.state) then {a.id} else {})
  {
    hide ReadBack, DocOf, Judge, Advance, Put, Moved;
    var pass := w.passes[p];
    var a := pass.kase.actions[i];
    assert pass.kase.actions[i..][0] == a;
    if Verifiable(a.state) {
      var key := Key(pass.run, a.id, a.params);
      JudgeFrame(w, p, key);
      var w1 := Judge(w, p, key, true).0;
      var to := VerifiedState(ReadBack(DocOf(w.docs, a.params).body, a.params));
      AdvanceFrame(w1, p, i, to, Checking(i + 1));
      MovedAs(pass, i, to, Checking(i + 1));
    } else {
      PutFrame(w, p, pass.(pc := Checking(i + 1)));
      assert pass.kase.actions[i := a] == pass.kase.actions && pass.touched + {} == pass.touched;
    }
  }

  lemma MovedAs(pass: Pass, i: nat, to: ActionState, pc: Pc)
    requires i < |pass.kase.actions|
    ensures var a := pass.kase.actions[i];
            Moved(pass, i, to, pc) ==
            pass.(pc := pc, kase := pass.kase.(actions := pass.kase.actions[i := a.(state := to)]), touched := pass.touched + {a.id})
  {
  }

  // --- a whole pass ---------------------------------------------------------------------------------------------

  /** A pass that was handed a lawful case which the actions table agrees with. */
  ghost predicate HandedOver(w: World, p: nat, run: RunId, c: Case, pc: Pc) {
    && p in w.passes && w.passes[p] == Pass(run, pc, c, {}) && c.run == run
    && AllLawful(c.actions) && DistinctIds(c.actions) && RowsAgree(w.rows, run, c.actions)
  }

  /** What no stage of the pass touches. */
  ghost predicate Untouched(w: World, v: World) {
    v.runs == w.runs && v.approvals == w.approvals && v.calls == w.calls && v.answers == w.answers && v.past.illegal == w.past.illegal
  }

  lemma ApproveSteps(w: World, p: nat, run: RunId, c: Case)
    requires HandedOver(w, p, run, c, AtApprove)
    ensures var v := Do(w, ApplyDecisions(p));
            var c1 := AfterDecisions(w.approvals, c);
            && HandedOver(v, p, run, c1, if c1.blockers == [] then Writing(0, 1) else AllWritten)
            && Untouched(w, v) && v.docs == w.docs && v.jobs == Dispatched(w.jobs, run, c1.actions)
            && v.audit == w.audit + [StageDone(run, Stage.Approve)]
  {
    hide Lawful, RowsAgree, Dispatched, Synced, CanSync, Merged, NewBlockers, WithDecision;
    DecidedIsLawful(w.approvals, c);
    DecisionsSync(w.rows, w.approvals, c);
  }

  /** Saving a stage: the states of the touched actions reach the table, which agrees with the case again. */
  lemma StageSaves(w: World, p: nat, before: seq<ActionView>, stage: Stage, pc: Pc)
    requires p in w.passes
    requires var pass := w.passes[p];
             && pass.kase.run == pass.run && RowsAgree(w.rows, pass.run, before) && DistinctIds(before)
             && MovesOnly(before, pass.kase.actions, pass.touched) && AllLawful(pass.kase.actions)
    ensures var pass := w.passes[p];
            var v := DoSave(w, p, stage, pc);
            && HandedOver(v, p, pass.run, pass.kase, pc)
            && Untouched(w, v) && v.docs == w.docs && v.jobs == w.jobs && v.audit == w.audit + [StageDone(pass.run, stage)]
            && pass.run in v.capsules && v.capsules[pass.run] == pass.kase
  {
    hide Lawful, RowsAgree, Synced, CanSync, MovesOnly;
    var pass := w.passes[p];
    WritesSync(w.rows, pass.run, before, pass.kase.actions, pass.touched);
  }

  lemma WrittenMoves(docs: Docs, run: RunId, actions: seq<ActionView>)
    requires AllLawful(actions)
    ensures var after := ExecutedAll(docs, run, actions).1;
            AllLawful(after) && MovesOnly(actions, after, WrittenIds(actions))
  {
    hide Lawful, ExecutedAll;
    ExecutedIsLawful(docs, run, actions);
  }

  lemma NothingMoves(actions: seq<ActionView>)
    ensures MovesOnly(actions, actions, {})
  {
  }

  /** The writes of the pass, or none while a blocker is open. */
  lemma ExecuteSteps(w: World, p: nat, run: RunId, c: Case) returns (steps: seq<Step>)
    requires HandedOver(w, p, run, c, if c.blockers == [] then Writing(0, 1) else AllWritten)
    ensures var (d, written) := if c.blockers == [] then ExecutedAll(w.docs, run, c.actions) else (w.docs, c.actions);
            var v := Protocol.Run(w, steps);
            && HandedOver(v, p, run, c.(actions := written), Checking(0))
            && Untouched(w, v) && v.docs == d && v.jobs == w.jobs && v.audit == w.audit + [StageDone(run, Stage.Execute)]
  {
    hide Lawful, RowsAgree, Do, ExecutedAll, MovesOnly, DoSave, DistinctIds;
    var writes: seq<Step> := [];
    assert c.actions[0..] == c.actions && c.actions[..0] == [];
    if c.blockers == [] {
      writes := WritesSettle(w, p, 0);
      WrittenMoves(w.docs, run, c.actions);
    } else {
      NothingMoves(c.actions);
    }
    var mid := Protocol.Run(w, writes);
    assert [] + ExecutedAll(w.docs, run, c.actions).1 == ExecutedAll(w.docs, run, c.actions).1;
    assert {} + WrittenIds(c.actions) == WrittenIds(c.actions);
    StageSaves(mid, p, c.actions, Stage.Execute, Checking(0));
    SaveStep(mid, p);
    OneStep(mid, SaveWrites(p));
    RunConcat(w, writes, [SaveWrites(p)]);
    steps := writes + [SaveWrites(p)];
  }

  lemma SaveStep(w: World, p: nat)
    requires p in w.passes && w.passes[p].pc == AllWritten
    ensures Do(w, SaveWrites(p)) == DoSave(w, p, Stage.Execute, Checking(0))
  {
  }

  lemma LastCheck(w: World, p: nat)
    requires p in w.passes && w.passes[p].pc == Checking(|w.passes[p].kase.actions|)
    ensures Do(w, CheckStep(p, true)) == DoSave(w, p, Stage.Verify, AllChecked)
  {
  }

  /** The read-backs of the pass. */
  lemma VerifySteps(w: World, p: nat, run: RunId, c: Case) returns (steps: seq<Step>)
    requires HandedOver(w, p, run, c, Checking(0))
    ensures var v := Protocol.Run(w, steps);
            && HandedOver(v, p, run, c.(actions := VerifiedAll(w.docs, c.actions)), AllChecked)
            && Untouched(w, v) && v.docs == w.docs && v.jobs == w.jobs && v.audit == w.audit + [StageDone(run, Stage.Verify)]
  {
    hide Lawful, RowsAgree, Do, VerifyOne, MovesOnly, DoSave, DistinctIds, Verifiable;
    assert c.actions[0..] == c.actions && c.actions[..0] == [];
    var checks := ChecksSettle(w, p, 0);
    var mid := Protocol.Run(w, checks);
    assert [] + VerifiedAll(w.docs, c.actions) == VerifiedAll(w.docs, c.actions);
    VerifiedIsLawful(w.docs, c.actions);
    assert {} + CheckedIds(c.actions) == CheckedIds(c.actions);
    StageSaves(mid, p, c.actions, Stage.Verify, AllChecked);
    LastCheck(mid, p);
    OneStep(mid, CheckStep(p, true));
    RunConcat(w, checks, [CheckStep(p, true)]);
    steps := checks + [CheckStep(p, true)];
  }

  lemma FinishSteps(w: World, p: nat, run: RunId, c: Case)
    requires HandedOver(w, p, run, c, AllChecked)
    ensures var v := Do(w, FinishPass(p));
            && p !in v.passes && Untouched(w, v) && v.docs == w.docs && v.jobs == Enqueue(w.jobs, ReceiptOf(c))
            && v.audit == w.audit + [StageDone(run, Stage.Finalize)]
            && run in v.capsules && v.capsules[run] == c && RowsAgree(v.rows, run, c.actions)
  {
    hide RowsAgree, ReceiptOf, Lawful;
  }

  /** The runner's pass from Approve to Finalize, as the class Runner computes it, is a run of the protocol: the same
      documents, the same saved case, the same jobs and audit rows. */
  lemma PassIsARun(w: World, p: nat, run: RunId, c: Case) returns (steps: seq<Step>)
    requires HandedOver(w, p, run, c, AtApprove)
    ensures var v := Protocol.Run(w, steps);
            var r := Continued(w.docs, w.approvals, c);
            && p !in v.passes && Untouched(w, v)
            && v.docs == r.docs && run in v.capsules && v.capsules[run] == r.kase && RowsAgree(v.rows, run, r.kase.actions)
            && v.jobs == Enqueue(Dispatched(w.jobs, run, AfterDecisions(w.approvals, c).actions), ReceiptOf(r.kase))
            && v.audit == w.audit + [StageDone(run, Stage.Approve), StageDone(run, Stage.Execute),
                                     StageDone(run, Stage.Verify), StageDone(run, Stage.Finalize)]
  {
    hide HandedOver, Do, ExecutedAll, VerifiedAll, ReceiptOf, Dispatched, RowsAgree, AfterDecisions;
    var c1 := AfterDecisions(w.approvals, c);
    ApproveSteps(w, p, run, c);
    OneStep(w, ApplyDecisions(p));
    var w1 := Do(w, ApplyDecisions(p));
    var writes := ExecuteSteps(w1, p, run, c1);
    var w2 := Protocol.Run(w1, writes);
    var (d, written) := if c1.blockers == [] then ExecutedAll(w.docs, run, c1.actions) else (w.docs, c1.actions);
    var checks := VerifySteps(w2, p, run, c1.(actions := written));
    var w3 := Protocol.Run(w2, checks);
    FinishSteps(w3, p, run, c1.(actions := VerifiedAll(d, written)));
    OneStep(w3, FinishPass(p));
    steps := [ApplyDecisions(p)] + (writes + (checks + [FinishPass(p)]));
    RunConcat(w, [ApplyDecisions(p)], writes + (checks + [FinishPass(p)]));
    RunConcat(w1, writes, checks + [FinishPass(p)]);
    RunConcat(w2, checks, [FinishPass(p)]);
    CaseRun(w, p, run, c);
  }

  lemma CaseRun(w: World, p: nat, run: RunId, c: Case)
    requires HandedOver(w, p, run, c, AtApprove)
    ensures c.run == run && AfterDecisions(w.approvals, c).run == run
  {
  }

  // --- the first pass -------------------------------------------------------------------------------------------

  /** Pass p is under way from w to v, with this case and place, and nothing else was touched but the run's facts, its case,
      the actions table and the audit. */
  ghost predicate Planning(w: World, v: World, p: nat, run: RunId, c: Case, pc: Pc) {
    && p in v.passes && v.passes[p] == Pass(run, pc, c, {})
    && v.docs == w.docs && v.approvals == w.approvals && v.calls == w.calls && v.nextCall == w.nextCall
    && v.answers == w.answers && v.jobs == w.jobs && v.past == w.past
  }

  lemma Discovered(w: World, run: RunId, who: Option<Person>)
    requires run in w.runs
    ensures var v := Protocol.Run(w, [BeginPass(run), DiscoverSubject(w.nextPass, who)]);
            && Planning(w, v, w.nextPass, run, Case(run, [], []), AtCompile)
            && v.runs == w.runs[run := w.runs[run].(beneficiary := who)] && v.rows == w.rows
            && v.audit == w.audit + [StageDone(run, Stage.Discover)]
  {
    TwoSteps(w, BeginPass(run), DiscoverSubject(w.nextPass, who));
  }

  lemma CompileDone(w: World, u: World, p: nat, run: RunId, c: Case, blockers: seq<string>)
    requires Planning(w, u, p, run, c, AtCompile)
    ensures var v := Do(u, CompileCase(p, blockers));
            && Planning(w, v, p, run, Case(run, [], blockers), AtGovern)
            && v.runs == u.runs && v.rows == u.rows && v.audit == u.audit + [StageDone(run, Stage.Compile)]
  {
  }

  lemma GovernDone(w: World, u: World, p: nat, run: RunId, c: Case, cs: seq<Candidate>)
    requires Planning(w, u, p, run, c, AtGovern) && forall i :: 0 <= i < |cs| ==> WellFormed(cs[i].verdict)
    ensures var v := Do(u, GovernCase(p, cs));
            && Planning(w, v, p, run, Case(run, StampAll(cs), c.blockers), AtPlan)
            && v.runs == u.runs && v.rows == Upserted(u.rows, run, StampAll(cs))
            && v.audit == u.audit + [StageDone(run, Stage.Govern)]
  {
    hide StampAll, Upserted, WellFormed;
  }

  lemma PlanDone(w: World, u: World, p: nat, run: RunId, c: Case, cs: seq<Candidate>)
    requires Planning(w, u, p, run, c, AtPlan) && forall i :: 0 <= i < |cs| ==> WellFormed(cs[i].verdict)
    ensures var v := Do(u, PlanCase(p, cs));
            var d := c.(actions := SortBy(c.actions + StampAll(cs), PlanKey));
            && Planning(w, v, p, run, d, AtHandoff)
            && v.runs == u.runs && v.rows == Upserted(u.rows, run, d.actions) && run in v.capsules && v.capsules[run] == d
            && v.audit == u.audit + [StageDone(run, Stage.Plan)]
  {
    hide StampAll, Upserted, WellFormed, SortBy, PlanKey;
  }

  lemma HandOverDone(w: World, u: World, p: nat, run: RunId, c: Case)
    requires Planning(w, u, p, run, c, AtHandoff) && run in u.capsules
    ensures var v := Do(u, HandOver(p));
            && Planning(w, v, p, run, u.capsules[run], AtApprove)
            && v.runs == u.runs && v.rows == u.rows && v.audit == u.audit + [StageDone(run, Stage.Handoff)]
  {
  }

  function GoverningSteps(run: RunId, p: nat, who: Option<Person>, blockers: seq<string>, grants: seq<Candidate>): seq<Step> {
    [BeginPass(run), DiscoverSubject(p, who)] + [CompileCase(p, blockers), GovernCase(p, grants)]
  }

  /** Discover to Govern. */
  lemma GovernIsARun(w: World, run: RunId, who: Option<Person>, blockers: seq<string>, grants: seq<Candidate>)
    requires run in w.runs && forall i :: 0 <= i < |grants| ==> WellFormed(grants[i].verdict)
    ensures var v := Protocol.Run(w, GoverningSteps(run, w.nextPass, who, blockers, grants));
            && Planning(w, v, w.nextPass, run, Case(run, StampAll(grants), blockers), AtPlan)
            && v.runs == w.runs[run := w.runs[run].(beneficiary := who)] && v.rows == Upserted(w.rows, run, StampAll(grants))
            && v.audit == w.audit + [StageDone(run, Stage.Discover), StageDone(run, Stage.Compile), StageDone(run, Stage.Govern)]
  {
    hide Do, Planning, StampAll, Upserted, WellFormed;
    var p := w.nextPass;
    var first, second := [BeginPass(run), DiscoverSubject(p, who)], [CompileCase(p, blockers), GovernCase(p, grants)];
    Discovered(w, run, who);
    var w2 := Protocol.Run(w, first);
    CompileDone(w, w2, p, run, Case(run, [], []), blockers);
    GovernDone(w, Do(w2, CompileCase(p, blockers)), p, run, Case(run, [], blockers), grants);
    TwoSteps(w2, CompileCase(p, blockers), GovernCase(p, grants));
    RunConcat(w, first, second);
  }

  lemma StageRowsAre(run: RunId)
    ensures StageRows(run)[..5] == [StageDone(run, Stage.Discover), StageDone(run, Stage.Compile), StageDone(run, Stage.Govern)]
                                   + [StageDone(run, Stage.Plan)] + [StageDone(run, Stage.Handoff)]
    ensures StageRows(run)[4..] == [StageDone(run, Stage.Handoff)]
                                   + [StageDone(run, Stage.Approve), StageDone(run, Stage.Execute),
                                      StageDone(run, Stage.Verify), StageDone(run, Stage.Finalize)]
    ensures StageRows(run) == StageRows(run)[..5] + StageRows(run)[4..][1..]
  {
  }

  function PlanningSteps(run: RunId, p: nat, s: Subject, blockers: seq<string>, grants: seq<Candidate>, revokes: seq<Candidate>)
    : seq<Step>
  {
    GoverningSteps(run, p, Some(s.id), blockers, grants) + [PlanCase(p, revokes), HandOver(p)]
  }

  /** Discover to Handoff: the pass stands before Approve with the planned case, and the actions table agrees with it. */
  lemma PlanIsARun(w: World, run: RunId, s: Subject, blockers: seq<string>, grants: seq<Candidate>, revokes: seq<Candidate>)
    requires run in w.runs
    requires forall i :: 0 <= i < |grants| ==> WellFormed(grants[i].verdict)
    requires forall i :: 0 <= i < |revokes| ==> WellFormed(revokes[i].verdict)
    ensures var v := Protocol.Run(w, PlanningSteps(run, w.nextPass, s, blockers, grants, revokes));
            var plan := SortBy(StampAll(grants) + StampAll(revokes), PlanKey);
            && Planning(w, v, w.nextPass, run, Case(run, plan, blockers), AtApprove)
            && v.runs == w.runs[run := w.runs[run].(beneficiary := Some(s.id))]
            && v.rows == Upserted(Upserted(w.rows, run, StampAll(grants)), run, plan)
            && v.audit == w.audit + StageRows(run)[..5]
  {
    hide Do, Planning, StampAll, Upserted, WellFormed, SortBy, PlanKey, GoverningSteps, StageRows;
    var p := w.nextPass;
    StageRowsAre(run);
    GovernIsARun(w, run, Some(s.id), blockers, grants);
    var first := GoverningSteps(run, p, Some(s.id), blockers, grants);
    var w4 := Protocol.Run(w, first);
    PlanDone(w, w4, p, run, Case(run, StampAll(grants), blockers), revokes);
    HandOverDone(w, Do(w4, PlanCase(p, revokes)), p, run, Case(run, SortBy(StampAll(grants) + StampAll(revokes), PlanKey), blockers));
    TwoSteps(w4, PlanCase(p, revokes), HandOver(p));
    RunConcat(w, first, [PlanCase(p, revokes), HandOver(p)]);
  }

  /** The runner's first pass, as Runner.RunRail computes it for a person that Discover found, is a run of the protocol: the
      same documents, the same saved case, the same jobs and all nine audit rows. */
  lemma FirstPassIsARun(w: World, run: RunId, intent: Intent, everything: bool, s: Subject, inputs: Inputs,
                        blockers: seq<string>, decide: Params -> Verdict) returns (steps: seq<Step>)
    requires run in w.runs && Iterates(inputs) && Decides(decide)
    requires Candidates(intent, everything, s, inputs).Some? && TransferRevokes(s, inputs).Some?
    ensures var c := Case(run, PlanOf(Candidates(intent, everything, s, inputs).value, TransferRevokes(s, inputs).value, decide),
                          blockers);
            var v := Protocol.Run(w, steps);
            var r := Continued(w.docs, w.approvals, c);
            && w.nextPass !in v.passes
            && v.docs == r.docs && run in v.capsules && v.capsules[run] == r.kase && RowsAgree(v.rows, run, r.kase.actions)
            && v.jobs == Enqueue(Dispatched(w.jobs, run, AfterDecisions(w.approvals, c).actions), ReceiptOf(r.kase))
            && v.audit == w.audit + StageRows(run)
            && v.runs == w.runs[run := w.runs[run].(beneficiary := Some(s.id))]
            && v.approvals == w.approvals && v.calls == w.calls && v.answers == w.answers
            && v.past.illegal == w.past.illegal
  {
    hide Do, Candidates, TransferRevokes, PlanOf, StampAll, Judged, Upserted, SortBy, PlanKey, Continued, AfterDecisions,
         Dispatched, ReceiptOf, RowsAgree, AllLawful, DistinctIds, WellFormed;
    var grants := Candidates(intent, everything, s, inputs).value;
    var revokes := TransferRevokes(s, inputs).value;
    var a, b := Judged(grants, decide), Judged(revokes, decide);
    var c := Case(run, PlanOf(grants, revokes, decide), blockers);
    PlanUnfolds(grants, revokes, decide);
    PlanIsARun(w, run, s, blockers, a, b);
    var first := PlanningSteps(run, w.nextPass, s, blockers, a, b);
    var u := Protocol.Run(w, first);
    PlanIsSound(Upserted(w.rows, run, StampAll(a)), run, intent, everything, s, inputs, decide);
    var more := PassIsARun(u, w.nextPass, run, c);
    RunConcat(w, first, more);
    steps := first + more;
    StageRowsAre(run);
  }

  // --- a decision through a door --------------------------------------------------------------------------------

  function AskStep(call: Call): Step { Ask(call.run, call.action, call.params, call.channel, call.actor, call.decision) }

  function AnswerTo(w: World, call: Call): DecisionResult
    requires call.run in w.runs
  {
    DoorAnswer(w.rows, w.approvals, call.run, call.action, call.params, call.channel, Some(call.actor), call.decision,
               w.runs[call.run])
  }

  /** The call as it stands in w. */
  ghost predicate AtCall(w: World, v: World, c: nat, call: Call) {
    v == w.(calls := w.calls[c := call], nextCall := c + 1)
  }

  /** The call has ended with its answer. */
  ghost predicate Ended(w: World, v: World, c: nat, call: Call, r: DecisionResult) {
    v == w.(calls := w.calls - {c}, nextCall := c + 1, answers := w.answers + [Answer(c, call.run, call.action, r)],
            audit := w.audit + if r.Rejected? then [NotDecided(call.run, call.action, call.actor)] else [])
  }

  lemma ReadsAction(w: World, u: World, c: nat, call: Call)
    requires call.phase == Asked && call.run in w.runs && AtCall(w, u, c, call)
    ensures var k := (call.run, call.action);
            var v := Do(u, ReadAction(c));
            if k in w.rows then AtCall(w, v, c, call.(phase := SawAction(w.runs[call.run], w.rows[k])))
            else Ended(w, v, c, call, Rejected)
  {
    assert w.calls[c := call] - {c} == w.calls - {c};
  }

  lemma ReadsApproval(w: World, u: World, c: nat, call: Call)
    requires call.run in w.runs && (call.run, call.action) in w.rows
    requires AtCall(w, u, c, call.(phase := SawAction(w.runs[call.run], w.rows[(call.run, call.action)])))
    ensures var v := Do(u, ReadApproval(c));
            if AnswerTo(w, call).Recorded?
            then AtCall(w, v, c, call.(phase := Cleared(w.runs[call.run], w.rows[(call.run, call.action)])))
            else Ended(w, v, c, call, AnswerTo(w, call))
  {
    hide DoGovern, DoPlan, DoHandOver, DoApplyDecisions, DoWrite, DoReconcile, DoSave, DoCheck, DoFinish, DoCommit, DoTell, Separate;
    assert u.calls - {c} == w.calls - {c};
    assert w.audit + [] == w.audit;
  }

  /** What a call does up to its commit: it is cleared to commit, or it has ended with its answer. */
  lemma CallReads(w: World, call: Call)
    requires call.phase == Asked && call.run in w.runs
    ensures var c, k := w.nextCall, (call.run, call.action);
            var v := Protocol.Run(w, [AskStep(call), ReadAction(c), ReadApproval(c)]);
            if AnswerTo(w, call).Recorded?
            then k in w.rows && k !in w.approvals && AtCall(w, v, c, call.(phase := Cleared(w.runs[call.run], w.rows[k])))
            else Ended(w, v, c, call, AnswerTo(w, call))
  {
    hide AtCall, Ended, MayDecide, DoReadAction, DoReadApproval;
    var c, k := w.nextCall, (call.run, call.action);
    ThreeSteps(w, AskStep(call), ReadAction(c), ReadApproval(c));
    var w1 := Do(w, AskStep(call));
    assert AtCall(w, w1, c, call) by { JustAsked(w, call); }
    ReadsAction(w, w1, c, call);
    var w2 := Do(w1, ReadAction(c));
    if k in w.rows {
      ReadsApproval(w, w2, c, call);
    } else {
      NobodyReads(w, w2, c, call);
    }
  }

  lemma JustAsked(w: World, call: Call)
    requires call.phase == Asked
    ensures AtCall(w, Do(w, AskStep(call)), w.nextCall, call)
  {
  }

  lemma NobodyReads(w: World, v: World, c: nat, call: Call)
    requires Ended(w, v, c, call, Rejected)
    ensures Do(v, ReadApproval(c)) == v
  {
  }

  /** The winner's transaction: the decision, its audit row and its two jobs. */
  lemma CallCommits(w: World, u: World, c: nat, call: Call, k: (RunId, ActionId))
    requires call.run in w.runs && k == (call.run, call.action) && k in w.rows && k !in w.approvals
    requires AtCall(w, u, c, call.(phase := Cleared(w.runs[call.run], w.rows[k])))
    ensures var v := Do(u, CommitDecision(c));
            && v == w.(calls := w.calls[c := call.(phase := Won)], nextCall := c + 1,
                       approvals := w.approvals[k := Approval(call.params, call.actor, call.decision, call.channel, c,
                                                               w.rows[k], w.runs[call.run])],
                       audit := w.audit + [Decided(call.run, call.action, call.actor, call.decision, call.channel, call.params)],
                       jobs := Enqueue(Enqueue(w.jobs, Mirror(call.run, call.action)), DoorUpdate(call.run, call.action)))
  {
    hide Enqueue;
    assert u.calls[c := call.(phase := Won)] == w.calls[c := call.(phase := Won)];
  }

  /** The winner continues the run with a pass of its own and is answered. */
  lemma CallTells(w: World, c: nat, call: Call)
    requires c in w.calls && w.calls[c] == call && call.phase == Won
    ensures Do(w, TellWinner(c)) ==
            w.(calls := w.calls - {c}, answers := w.answers + [Answer(c, call.run, call.action, Recorded(call.actor, call.channel))],
               passes := w.passes[w.nextPass := Pass(call.run, AtHandoff, Case(call.run, [], []), {})], nextPass := w.nextPass + 1)
  {
  }

  function DecideSteps(call: Call, c: nat): seq<Step> {
    [AskStep(call), ReadAction(c), ReadApproval(c)] + [CommitDecision(c), TellWinner(c)]
  }

  /** A decision that is recorded, up to the pass it starts. */
  lemma CallDecides(w: World, call: Call)
    requires call.phase == Asked && call.run in w.runs && AnswerTo(w, call).Recorded?
    ensures var c, k := w.nextCall, (call.run, call.action);
            var v := Protocol.Run(w, DecideSteps(call, c));
            && k in w.rows && k !in w.approvals
            && v.approvals == w.approvals[k := Approval(call.params, call.actor, call.decision, call.channel, c, w.rows[k],
                                                         w.runs[call.run])]
            && v.audit == w.audit + [Decided(call.run, call.action, call.actor, call.decision, call.channel, call.params)]
            && v.jobs == Enqueue(Enqueue(w.jobs, Mirror(call.run, call.action)), DoorUpdate(call.run, call.action))
            && v.answers == w.answers + [Answer(c, call.run, call.action, AnswerTo(w, call))]
            && v.passes == w.passes[w.nextPass := Pass(call.run, AtHandoff, Case(call.run, [], []), {})]
            && v.calls == w.calls - {c} && v.runs == w.runs && v.capsules == w.capsules && v.rows == w.rows
            && v.docs == w.docs && v.past == w.past
  {
    hide DoCommit, DoTell, DoReadAction, DoReadApproval, Enqueue, MayDecide, AtCall;
    var c, k := w.nextCall, (call.run, call.action);
    CallReads(w, call);
    var start := [AskStep(call), ReadAction(c), ReadApproval(c)];
    var w3 := Protocol.Run(w, start);
    CallCommits(w, w3, c, call, k);
    var w4 := Do(w3, CommitDecision(c));
    CallTells(w4, c, call.(phase := Won));
    TwoSteps(w3, CommitDecision(c), TellWinner(c));
    RunConcat(w, start, [CommitDecision(c), TellWinner(c)]);
    assert w.calls[c := call.(phase := Won)] - {c} == w.calls - {c};
  }

  /** A call that is not recorded, answered and gone: a rejection leaves its audit row, a late call nothing. */
  lemma RefusedCallIsARun(w: World, call: Call)
    requires call.phase == Asked && call.run in w.runs && !AnswerTo(w, call).Recorded?
    ensures var c := w.nextCall;
            Ended(w, Protocol.Run(w, [AskStep(call), ReadAction(c), ReadApproval(c)]), c, call, AnswerTo(w, call))
  {
    CallReads(w, call);
  }

  /** A recorded decision on a run that awaits it, as Runner.Decide computes it, is a run of the protocol: the same answer,
      decision, documents, saved case, jobs and audit rows. */
  lemma DecideIsARun(w: World, call: Call) returns (steps: seq<Step>)
    requires call.phase == Asked && call.run in w.runs && AnswerTo(w, call).Recorded? && call.run in w.capsules
    requires var c := w.capsules[call.run];
             c.run == call.run && AllLawful(c.actions) && DistinctIds(c.actions) && RowsAgree(w.rows, c.run, c.actions)
    ensures var run, k, c := call.run, (call.run, call.action), w.capsules[call.run];
            var v := Protocol.Run(w, steps);
            var r := Continued(w.docs, v.approvals, c);
            && k in w.rows && k !in w.approvals
            && v.answers == w.answers + [Answer(w.nextCall, run, call.action, AnswerTo(w, call))]
            && v.approvals == w.approvals[k := Approval(call.params, call.actor, call.decision, call.channel, w.nextCall, w.rows[k],
                                                         w.runs[run])]
            && v.docs == r.docs && run in v.capsules && v.capsules[run] == r.kase && RowsAgree(v.rows, run, r.kase.actions)
            && v.jobs == Enqueue(Dispatched(Enqueue(Enqueue(w.jobs, Mirror(run, call.action)), DoorUpdate(run, call.action)), run,
                                            AfterDecisions(v.approvals, c).actions), ReceiptOf(r.kase))
            && v.audit == w.audit + [Decided(run, call.action, call.actor, call.decision, call.channel, call.params)]
                          + StageRows(run)[4..]
            && w.nextPass !in v.passes && v.runs == w.runs && v.calls == w.calls - {w.nextCall} && v.past.illegal == w.past.illegal
  {
    hide Do, Continued, AfterDecisions, Dispatched, ReceiptOf, RowsAgree, AllLawful, DistinctIds, Enqueue, DoorAnswer;
    var run, c, p := call.run, w.capsules[call.run], w.nextPass;
    CallDecides(w, call);
    var first := DecideSteps(call, w.nextCall);
    var u := Protocol.Run(w, first);
    HandOverDone(u, u, p, run, Case(run, [], []));
    OneStep(u, HandOver(p));
    var u1 := Do(u, HandOver(p));
    var more := PassIsARun(u1, p, run, c);
    RunConcat(u, [HandOver(p)], more);
    RunConcat(w, first, [HandOver(p)] + more);
    steps := first + ([HandOver(p)] + more);
    StageRowsAre(run);
  }
}
