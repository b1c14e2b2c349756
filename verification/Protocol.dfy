/** The governed run as a concurrent protocol: any number of rail passes, door decisions, crashes, restarts and
    connector faults interleave freely, one database transaction or one connector access at a time.

    A pass may begin or resume at any moment and as often as it likes; the status checks and locks that restrict this
    in the engine are not used, so every interleaving the engine allows is among these. */
module Protocol {
  import opened Models
  import opened Order
  import opened Connector
  import opened Execute
  import opened FinalizeStage

  datatype Decision = Approve | Refuse

  datatype RunInfo = RunInfo(requestedBy: Option<Person>, beneficiary: Option<Person>)

  /** The sealed capsule, as far as it governs what happens. */
  datatype Case = Case(run: RunId, actions: seq<ActionView>, blockers: seq<string>)

  /** An approvals row. `call`, `row` and `info` are history: the winning decide call and what it had read. */
  datatype Approval = Approval(params: Params, approver: Person, decision: Decision, channel: string,
                               call: nat, row: ActionView, info: RunInfo)

  datatype AuditRow =
    | Decided(run: RunId, action: ActionId, approver: Person, decision: Decision, channel: string, params: Params)
    | NotDecided(run: RunId, action: ActionId, who: Person)
    | StageDone(run: RunId, stage: Stage)
    | DigestMismatch(run: RunId)

  /** Jobs, as far as the rail and the doors enqueue them. A dispatch job names whom it asks, and about which parameters. */
  datatype JobRow = Dispatch(run: RunId, action: ActionId, approver: Person, params: Params) | Mirror(run: RunId, action: ActionId) |
                    DoorUpdate(run: RunId, action: ActionId) |
                    Receipt(run: RunId, status: RunStatus, verified: nat, failed: nat)

  datatype Pc =
    | AtDiscover | AtCompile | AtGovern | AtPlan | AtHandoff | AtApprove
    | Writing(i: nat, attempt: nat) | Reconciling(i: nat, attempt: nat) | AllWritten
    | Checking(i: nat) | AllChecked

  /** One pass in memory: its own copy of the case and the ids whose state it still has to save. */
  datatype Pass = Pass(run: RunId, pc: Pc, kase: Case, touched: set<ActionId>)

  datatype Phase =
    | Asked
    | SawAction(info: RunInfo, row: ActionView)
    | Cleared(info: RunInfo, row: ActionView)
    | Won
    | Lost

  /** One decision call in memory; the actor is already resolved to a person. */
  datatype Call = Call(run: RunId, action: ActionId, params: Params, channel: string, actor: Person,
                       decision: Decision, phase: Phase)

  datatype DecisionResult = Recorded(who: Person, via: string) | AlreadyDecided(who: Person, via: string) | Rejected

  datatype Answer = Answer(call: nat, run: RunId, action: ActionId, result: DecisionResult)

  /** History: a connector write that was issued, under which verdict and with which blockers open. */
  datatype WriteRecord = WriteRecord(key: Key, verdict: Option<VerdictKind>, approver: Option<Person>, blockers: seq<string>)

  /** History: the read-back with which a verify pass found an action's intended state. */
  datatype Check = Check(pass: nat, body: Body)

  /** History: the writes that were issued; where a reconciling read-back found a key's intended state, and where a read-back
      of Verify did; and whether some action's transition ever raised IllegalTransition. */
  datatype Past = Past(writes: seq<WriteRecord>, seen: map<Key, Body>, checks: map<Key, Check>, illegal: bool)

  datatype World = World(
    runs: map<RunId, RunInfo>,
    capsules: map<RunId, Case>,
    rows: map<(RunId, ActionId), ActionView>,
    approvals: map<(RunId, ActionId), Approval>,
    audit: seq<AuditRow>,
    jobs: seq<JobRow>,
    docs: Docs,
    passes: map<nat, Pass>, nextPass: nat,
    calls: map<nat, Call>, nextCall: nat,
    answers: seq<Answer>,
    past: Past)

  /** A candidate action with the policy engine's verdict on it. */
  datatype Candidate = Candidate(id: ActionId, params: Params, verdict: Verdict)

  datatype Step =
    | CreateRun(run: RunId, requestedBy: Option<Person>)
    | BeginPass(run: RunId)
    | DiscoverSubject(p: nat, beneficiary: Option<Person>)
    | CompileCase(p: nat, blockers: seq<string>)
    | GovernCase(p: nat, candidates: seq<Candidate>)
    | PlanCase(p: nat, revokes: seq<Candidate>)
    | ResumePass(run: RunId)
    | HandOver(p: nat)
    | ApplyDecisions(p: nat)
    | WriteStep(p: nat)
    | ReconcileStep(p: nat, readable: bool)
    | SaveWrites(p: nat)
    | CheckStep(p: nat, readable: bool)
    | FinishPass(p: nat)
    | CrashPass(p: nat)
    | InjectFault(github: bool, key: string, fault: Fault)
    | Ask(run: RunId, action: ActionId, params: Params, channel: string, actor: Person, decision: Decision)
    | ReadAction(c: nat)
    | ReadApproval(c: nat)
    | CommitDecision(c: nat)
    | TellWinner(c: nat)
    | CrashCall(c: nat)

  // --- the rail's steps -----------------------------------------------------------------------------------------

  function NewPass(w: World, run: RunId, pc: Pc): World {
    w.(passes := w.passes[w.nextPass := Pass(run, pc, Case(run, [], []), {})], nextPass := w.nextPass + 1)
  }

  function Put(w: World, p: nat, pass: Pass): World { w.(passes := w.passes[p := pass]) }

  /** The pass dies: a crash, or an exception that rolled its transaction back. */
  function Kill(w: World, p: nat): World { w.(passes := w.passes - {p}) }

  /** A move that the transition table forbids raises. */
  function Illegal(w: World, p: nat): World { Kill(w, p).(past := w.past.(illegal := true)) }

  function StampAll(cs: seq<Candidate>): seq<ActionView> {
    if cs == [] then [] else [Stamped(cs[0].id, cs[0].params, cs[0].verdict)] + StampAll(cs[1..])
  }

  function Upserted(rows: map<(RunId, ActionId), ActionView>, run: RunId, actions: seq<ActionView>)
    : map<(RunId, ActionId), ActionView>
    decreases |actions|
  {
    if actions == [] then rows else Upserted(rows[(run, actions[0].id) := actions[0]], run, actions[1..])
  }

  /** The table with the states of the given ids saved. */
  function Synced(rows: map<(RunId, ActionId), ActionView>, run: RunId, actions: seq<ActionView>, ids: set<ActionId>)
    : map<(RunId, ActionId), ActionView>
    decreases |actions|
  {
    if actions == [] then rows
    else
      var k := (run, actions[0].id);
      Synced(if actions[0].id in ids && k in rows then rows[k := rows[k].(state := actions[0].state)] else rows,
             run, actions[1..], ids)
  }

  /** Every row is there, and the table's own check holds: a REFUSE row is only ever planned or refused. */
  predicate CanSync(rows: map<(RunId, ActionId), ActionView>, run: RunId, actions: seq<ActionView>, ids: set<ActionId>) {
    forall i :: 0 <= i < |actions| && actions[i].id in ids ==>
      && (run, actions[i].id) in rows
      && (rows[(run, actions[i].id)].verdict == Some(REFUSE) ==> actions[i].state in {Planned, Refused})
  }

  /** Plan order: allowed grants, allowed other actions, holds, refusals; then by id. */
  function PlanKey(a: ActionView): string {
    (if a.verdict == Some(ALLOW) then (if a.params.kind == "grant" then "0" else "1")
     else if a.verdict == Some(HOLD) then "2" else "3") + a.id
  }

  function DoDiscover(w: World, p: nat, who: Option<Person>): World {
    if p !in w.passes || w.passes[p].pc != AtDiscover || w.passes[p].run !in w.runs then w
    else
      var run := w.passes[p].run;
      Put(w, p, w.passes[p].(pc := AtCompile)).(runs := w.runs[run := w.runs[run].(beneficiary := who)],
                                                audit := w.audit + [StageDone(run, Stage.Discover)])
  }

  function DoCompile(w: World, p: nat, blockers: seq<string>): World {
    if p !in w.passes || w.passes[p].pc != AtCompile then w
    else
      var run := w.passes[p].run;
      var c := Case(run, [], blockers);
      Put(w, p, Pass(run, AtGovern, c, {})).(capsules := w.capsules[run := c],
                                              audit := w.audit + [StageDone(run, Stage.Compile)])
  }

  function DoGovern(w: World, p: nat, candidates: seq<Candidate>): World {
    if p !in w.passes || w.passes[p].pc != AtGovern || exists i :: 0 <= i < |candidates| && !WellFormed(candidates[i].verdict)
    then w
    else
      var run := w.passes[p].run;
      var c := Case(run, StampAll(candidates), w.passes[p].kase.blockers);
      Put(w, p, Pass(run, AtPlan, c, {})).(capsules := w.capsules[run := c], rows := Upserted(w.rows, run, c.actions),
                                            audit := w.audit + [StageDone(run, Stage.Govern)])
  }

  function DoPlan(w: World, p: nat, revokes: seq<Candidate>): World {
    if p !in w.passes || w.passes[p].pc != AtPlan || exists i :: 0 <= i < |revokes| && !WellFormed(revokes[i].verdict)
    then w
    else
      var pass := w.passes[p];
      var c := pass.kase.(actions := SortBy(pass.kase.actions + StampAll(revokes), PlanKey));
      Put(w, p, Pass(pass.run, AtHandoff, c, {})).(capsules := w.capsules[pass.run := c],
                                                    rows := Upserted(w.rows, pass.run, c.actions),
                                                    audit := w.audit + [StageDone(pass.run, Stage.Plan)])
  }

  /** The case is loaded by value from the run's row, whoever saved it last. */
  function DoHandOver(w: World, p: nat): World {
    if p !in w.passes || w.passes[p].pc != AtHandoff then w
    else if w.passes[p].run !in w.capsules then Kill(w, p)
    else
      var run := w.passes[p].run;
      Put(w, p, Pass(run, AtApprove, w.capsules[run], {})).(audit := w.audit + [StageDone(run, Stage.Handoff)])
  }

  /** A decision counts only for an awaiting action and exactly its parameters. */
  predicate Counts(approvals: map<(RunId, ActionId), Approval>, run: RunId, a: ActionView) {
    a.state == Awaiting && (run, a.id) in approvals && approvals[(run, a.id)].params == a.params
  }

  function DecidedState(approvals: map<(RunId, ActionId), Approval>, run: RunId, a: ActionView): ActionState
    requires Counts(approvals, run, a)
  {
    if approvals[(run, a.id)].decision == Decision.Approve then Approved else Refused
  }

  function WithDecision(approvals: map<(RunId, ActionId), Approval>, run: RunId, a: ActionView): ActionView {
    if Counts(approvals, run, a) then a.(state := DecidedState(approvals, run, a)) else a
  }

  function WithDecisions(approvals: map<(RunId, ActionId), Approval>, run: RunId, actions: seq<ActionView>)
    : (r: seq<ActionView>)
    ensures |r| == |actions|
    ensures forall i :: 0 <= i < |r| ==> r[i] == WithDecision(approvals, run, actions[i])
  {
    if actions == [] then []
    else [WithDecision(approvals, run, actions[0])] + WithDecisions(approvals, run, actions[1..])
  }

  predicate Unresolved(approver: Option<Person>) {
    approver.None? || "role:" <= approver.value
  }

  /** The blocker of an awaiting action that nobody could be named for. */
  function NoApprover(a: ActionView): string {
    "No named approver for " + a.id + " (" + a.approver.GetOr("None") + "); resolve the role before it can proceed."
  }

  function NewBlockers(actions: seq<ActionView>): seq<string> {
    if actions == [] then []
    else (if actions[0].state == Awaiting && Unresolved(actions[0].approver) then [NoApprover(actions[0])] else [])
         + NewBlockers(actions[1..])
  }

  function AddNew(seen: seq<string>, more: seq<string>): seq<string>
    decreases |more|
  {
    if more == [] then seen else AddNew(if more[0] in seen then seen else seen + [more[0]], more[1..])
  }

  /** Both lists in order, each text once, where it first occurs. */
  function Merged(a: seq<string>, b: seq<string>): seq<string> { AddNew([], a + b) }

  /** One dedupe key: a dispatch job's is its run and action, whatever it asks. */
  predicate SameKey(j: JobRow, k: JobRow) {
    j == k || (j.Dispatch? && k.Dispatch? && j.run == k.run && j.action == k.action)
  }

  predicate Taken(jobs: seq<JobRow>, j: JobRow) { exists k :: k in jobs && SameKey(k, j) }

  function Enqueue(jobs: seq<JobRow>, j: JobRow): seq<JobRow> { if Taken(jobs, j) then jobs else jobs + [j] }

  /** The action waits for a person who was named. */
  predicate Waits(a: ActionView) { a.state == Awaiting && !Unresolved(a.approver) }

  /** The job that asks the action's approver about its parameters. */
  function AskFor(run: RunId, a: ActionView): JobRow { Dispatch(run, a.id, a.approver.GetOr(""), a.params) }

  function Dispatched(jobs: seq<JobRow>, run: RunId, actions: seq<ActionView>): seq<JobRow>
    decreases |actions|
  {
    if actions == [] then jobs
    else Dispatched(if Waits(actions[0]) then Enqueue(jobs, AskFor(run, actions[0])) else jobs, run, actions[1..])
  }

  predicate RaisesOnDecision(approvals: map<(RunId, ActionId), Approval>, c: Case) {
    exists i :: 0 <= i < |c.actions| && Counts(approvals, c.run, c.actions[i]) &&
                !CanMove(c.actions[i], DecidedState(approvals, c.run, c.actions[i]))
  }

  function DecidedIds(approvals: map<(RunId, ActionId), Approval>, c: Case): set<ActionId> {
    set i | 0 <= i < |c.actions| && Counts(approvals, c.run, c.actions[i]) :: c.actions[i].id
  }

  function AfterDecisions(approvals: map<(RunId, ActionId), Approval>, c: Case): Case {
    var actions := WithDecisions(approvals, c.run, c.actions);
    c.(actions := actions, blockers := Merged(c.blockers, NewBlockers(actions)))
  }

  /** The pass after Approve; it writes nothing while a blocker is open. */
  function AfterApprove(run: RunId, c: Case): Pass {
    Pass(run, if c.blockers == [] then Writing(0, 1) else AllWritten, c, {})
  }

  function DoApplyDecisions(w: World, p: nat): World {
    if p !in w.passes || w.passes[p].pc != AtApprove then w
    else if RaisesOnDecision(w.approvals, w.passes[p].kase) then Illegal(w, p)
    else
      var run := w.passes[p].run;
      var c := AfterDecisions(w.approvals, w.passes[p].kase);
      var decided := DecidedIds(w.approvals, w.passes[p].kase);
      if !CanSync(w.rows, run, c.actions, decided) then Kill(w, p)
      else
        w.(passes := w.passes[p := AfterApprove(run, c)],
           capsules := w.capsules[run := c],
           rows := Synced(w.rows, run, c.actions, decided),
           jobs := Dispatched(w.jobs, run, c.actions),
           audit := w.audit + [StageDone(run, Stage.Approve)])
  }

  /** Action i moves and the pass goes on at `pc`; an illegal move raises. */
  function Advance(w: World, p: nat, i: nat, to: ActionState, pc: Pc): World
    requires p in w.passes && i < |w.passes[p].kase.actions|
  {
    var pass := w.passes[p];
    var a := pass.kase.actions[i];
    if !CanMove(a, to) then Illegal(w, p)
    else Put(w, p, Pass(pass.run, pc, pass.kase.(actions := pass.kase.actions[i := a.(state := to)]),
                        pass.touched + {a.id}))
  }

  /** One keyed write to the system the action names. */
  function Issue(w: World, r: WriteRecord): (World, WriteOutcome) {
    var (d, out) := Write(DocOf(w.docs, r.key.params), r.key);
    (w.(docs := WithDoc(w.docs, r.key.params, d), past := w.past.(writes := w.past.writes + [r])), out)
  }

  function DoWrite(w: World, p: nat): World {
    if p !in w.passes || !w.passes[p].pc.Writing? then w
    else
      var pass := w.passes[p];
      var i, attempt := pass.pc.i, pass.pc.attempt;
      if i >= |pass.kase.actions| then Put(w, p, pass.(pc := AllWritten))
      else
        var a := pass.kase.actions[i];
        if !IsExecutable(a) then Put(w, p, pass.(pc := Writing(i + 1, 1)))
        else
          var key := Key(pass.run, a.id, a.params);
          var (w1, out) := Issue(w, WriteRecord(key, a.verdict, a.approver, pass.kase.blockers));
          match AfterWrite(out, attempt, MAX_ATTEMPTS)
          case Finish(s) => Advance(w1, p, i, s, Writing(i + 1, 1))
          case Retry => Put(w1, p, pass.(pc := Writing(i, attempt + 1)))
          case Reconcile => Put(w1, p, pass.(pc := Reconciling(i, attempt)))
  }

  /** A reconciling read-back, which may itself fail; what it finds is remembered. */
  function Look(w: World, key: Key, readable: bool): (World, Readback) {
    var body := DocOf(w.docs, key.params).body;
    var r := if readable then ReadBack(body, key.params) else Unreadable;
    (if r == Seen(true) then w.(past := w.past.(seen := w.past.seen[key := body])) else w, r)
  }

  /** The read-back with which Verify in pass p judges an action. */
  function Judge(w: World, p: nat, key: Key, readable: bool): (World, Readback) {
    var body := DocOf(w.docs, key.params).body;
    var r := if readable then ReadBack(body, key.params) else Unreadable;
    (if r == Seen(true) then w.(past := w.past.(checks := w.past.checks[key := Check(p, body)])) else w, r)
  }

  function DoReconcile(w: World, p: nat, readable: bool): World {
    if p !in w.passes || !w.passes[p].pc.Reconciling? || w.passes[p].pc.i >= |w.passes[p].kase.actions| then w
    else
      var pass := w.passes[p];
      var i, attempt := pass.pc.i, pass.pc.attempt;
      var a := pass.kase.actions[i];
      var (w1, r) := Look(w, Key(pass.run, a.id, a.params), readable);
      match AfterReadback(r, attempt, MAX_ATTEMPTS)
      case Finish(s) => Advance(w1, p, i, s, Writing(i + 1, 1))
      case _ => Put(w1, p, pass.(pc := Writing(i, attempt + 1)))
  }

  function DoSave(w: World, p: nat, stage: Stage, pc: Pc): World
    requires p in w.passes
  {
    var pass := w.passes[p];
    if !CanSync(w.rows, pass.run, pass.kase.actions, pass.touched) then Kill(w, p)
    else Put(w, p, Pass(pass.run, pc, pass.kase, {})).(
           capsules := w.capsules[pass.run := pass.kase],
           rows := Synced(w.rows, pass.run, pass.kase.actions, pass.touched),
           audit := w.audit + [StageDone(pass.run, stage)])
  }

  function DoCheck(w: World, p: nat, readable: bool): World {
    if p !in w.passes || !w.passes[p].pc.Checking? then w
    else
      var pass := w.passes[p];
      var i := pass.pc.i;
      if i >= |pass.kase.actions| then DoSave(w, p, Stage.Verify, AllChecked)
      else
        var a := pass.kase.actions[i];
        if !Verifiable(a.state) then Put(w, p, pass.(pc := Checking(i + 1)))
        else
          var (w1, r) := Judge(w, p, Key(pass.run, a.id, a.params), readable);
          Advance(w1, p, i, VerifiedState(r), Checking(i + 1))
  }

  /** One receipt per distinct outcome of the run. */
  function ReceiptOf(c: Case): (j: JobRow)
    ensures j.Receipt? && j.run == c.run
  {
    var t := TallyOf(c.actions);
    Receipt(c.run, FinalStatus(c.actions, c.blockers), t.verified, t.failed)
  }

  function DoFinish(w: World, p: nat): World {
    if p !in w.passes || w.passes[p].pc != AllChecked then w
    else
      var pass := w.passes[p];
      Kill(w, p).(capsules := w.capsules[pass.run := pass.kase],
                  jobs := Enqueue(w.jobs, ReceiptOf(pass.kase)),
                  audit := w.audit + [StageDone(pass.run, Stage.Finalize)])
  }

  // --- the door's steps -----------------------------------------------------------------------------------------

  /** Separation of duties (POL-SOD-001): an unknown requester or beneficiary refuses. */
  predicate Separate(info: RunInfo, approver: Person) {
    && info.requestedBy.Some? && info.requestedBy.value != "" && info.requestedBy.value != approver
    && info.beneficiary.Some? && info.beneficiary.value != "" && info.beneficiary.value != approver
  }

  /** What the door checks against the rows it read: still awaiting, exactly these parameters, the named approver. */
  predicate MayDecide(call: Call, info: RunInfo, row: ActionView) {
    && row.state == Awaiting && row.params == call.params && row.approver == Some(call.actor)
    && Separate(info, call.actor)
  }

  /** What a decision call is answered, from the tables it reads. An unknown identity is no actor. */
  function DoorAnswer(rows: map<(RunId, ActionId), ActionView>, approvals: map<(RunId, ActionId), Approval>, run: RunId,
                      action: ActionId, params: Params, channel: string, actor: Option<Person>, decision: Decision,
                      info: RunInfo): DecisionResult
  {
    var k := (run, action);
    if actor.None? || k !in rows then Rejected
    else if k in approvals then AlreadyDecided(approvals[k].approver, approvals[k].channel)
    else if !MayDecide(Call(run, action, params, channel, actor.value, decision, Asked), info, rows[k]) then Rejected
    else Recorded(actor.value, channel)
  }

  function Reply(w: World, c: nat, result: DecisionResult): World
    requires c in w.calls
  {
    w.(calls := w.calls - {c}, answers := w.answers + [Answer(c, w.calls[c].run, w.calls[c].action, result)])
  }

  function Reject(w: World, c: nat): World
    requires c in w.calls
  {
    var call := w.calls[c];
    var w1 := Reply(w, c, Rejected);
    if call.run in w.runs then w1.(audit := w.audit + [NotDecided(call.run, call.action, call.actor)]) else w1
  }

  function DoReadAction(w: World, c: nat): World {
    if c !in w.calls || w.calls[c].phase != Asked then w
    else
      var call := w.calls[c];
      if call.run !in w.runs || (call.run, call.action) !in w.rows then Reject(w, c)
      else w.(calls := w.calls[c := call.(phase := SawAction(w.runs[call.run], w.rows[(call.run, call.action)]))])
  }

  function DoReadApproval(w: World, c: nat): World {
    if c !in w.calls || !w.calls[c].phase.SawAction? then w
    else
      var call := w.calls[c];
      var k := (call.run, call.action);
      var row, info := call.phase.row, call.phase.info;
      if k in w.approvals then Reply(w, c, AlreadyDecided(w.approvals[k].approver, w.approvals[k].channel))
      else if !MayDecide(call, info, row) then Reject(w, c)
      else w.(calls := w.calls[c := call.(phase := Cleared(info, row))])
  }

  /** One transaction: the first insert wins, and only the winner audits and enqueues. */
  function DoCommit(w: World, c: nat): World {
    if c !in w.calls || !w.calls[c].phase.Cleared? then w
    else
      var call := w.calls[c];
      var k := (call.run, call.action);
      if k in w.approvals then w.(calls := w.calls[c := call.(phase := Lost)])
      else
        w.(approvals := w.approvals[k := Approval(call.params, call.actor, call.decision, call.channel, c,
                                                   call.phase.row, call.phase.info)],
           audit := w.audit + [Decided(call.run, call.action, call.actor, call.decision, call.channel, call.params)],
           jobs := Enqueue(Enqueue(w.jobs, Mirror(call.run, call.action)), DoorUpdate(call.run, call.action)),
           calls := w.calls[c := call.(phase := Won)])
  }

  /** The winner resumes the run and answers; the loser reads who won and answers. */
  function DoTell(w: World, c: nat): World {
    if c !in w.calls || (w.calls[c].phase != Won && w.calls[c].phase != Lost) then w
    else
      var call := w.calls[c];
      var k := (call.run, call.action);
      if call.phase == Won then Reply(NewPass(w, call.run, AtHandoff), c, Recorded(call.actor, call.channel))
      else if k in w.approvals then Reply(w, c, AlreadyDecided(w.approvals[k].approver, w.approvals[k].channel))
      else w.(calls := w.calls - {c})
  }

  // --- runs of the protocol -------------------------------------------------------------------------------------

  function Init(ent: Body, gh: Body): World {
    World(map[], map[], map[], map[], [], [], Docs(Doc(ent, {}, map[], []), Doc(gh, {}, map[], [])),
          map[], 0, map[], 0, [], Past([], map[], map[], false))
  }

  function DoCreate(w: World, run: RunId, requester: Option<Person>): World {
    if run in w.runs then w else w.(runs := w.runs[run := RunInfo(requester, None)])
  }

  function Do(w: World, s: Step): World {
    match s
    case CreateRun(run, requester) => DoCreate(w, run, requester)
    case BeginPass(run) => if run in w.runs then NewPass(w, run, AtDiscover) else w
    case DiscoverSubject(p, who) => DoDiscover(w, p, who)
    case CompileCase(p, blockers) => DoCompile(w, p, blockers)
    case GovernCase(p, candidates) => DoGovern(w, p, candidates)
    case PlanCase(p, revokes) => DoPlan(w, p, revokes)
    case ResumePass(run) => NewPass(w, run, AtHandoff)
    case HandOver(p) => DoHandOver(w, p)
    case ApplyDecisions(p) => DoApplyDecisions(w, p)
    case WriteStep(p) => DoWrite(w, p)
    case ReconcileStep(p, readable) => DoReconcile(w, p, readable)
    case SaveWrites(p) =>
      if p in w.passes && w.passes[p].pc == AllWritten then DoSave(w, p, Stage.Execute, Checking(0)) else w
    case CheckStep(p, readable) => DoCheck(w, p, readable)
    case FinishPass(p) => DoFinish(w, p)
    case CrashPass(p) => Kill(w, p)
    case InjectFault(github, key, fault) =>
      if github then w.(docs := w.docs.(gh := w.docs.gh.(faults := w.docs.gh.faults[key := fault])))
      else w.(docs := w.docs.(ent := w.docs.ent.(faults := w.docs.ent.faults[key := fault])))
    case Ask(run, action, params, channel, actor, decision) =>
      w.(calls := w.calls[w.nextCall := Call(run, action, params, channel, actor, decision, Asked)],
         nextCall := w.nextCall + 1)
    case ReadAction(c) => DoReadAction(w, c)
    case ReadApproval(c) => DoReadApproval(w, c)
    case CommitDecision(c) => DoCommit(w, c)
    case TellWinner(c) => DoTell(w, c)
    case CrashCall(c) => w.(calls := w.calls - {c})
  }

  function Run(w: World, steps: seq<Step>): World
    decreases |steps|
  {
    if steps == [] then w else Run(Do(w, steps[0]), steps[1..])
  }
}
