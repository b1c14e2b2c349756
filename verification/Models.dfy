/** The domain model: action states and verdicts, run statuses and the fixed order of the rail's stages.

    A sha256 digest over canonical JSON is modelled by the value that is hashed (its preimage): Canonical.dfy proves
    that distinct values print to distinct strings, so two digests agree exactly when the values do, up to a
    collision of the hash itself. */
module Models {
  datatype Option<+T> = None | Some(value: T) {
    function GetOr(default: T): T { if Some? then value else default }
  }
  datatype Result<+T, +E> = Success(value: T) | Failure(error: E)

  type RunId = nat
  type ActionId = string
  type Person = string

  // --- actions ------------------------------------------------------------------------------------------------

  datatype ActionState = Planned | Awaiting | Approved | Refused | Executed | Verified | Failed | Unknown

  /** The moves out of each state; refused, failed and verified are terminal. */
  function ActionTransitions(s: ActionState): set<ActionState> {
    match s
    case Planned => {Awaiting, Refused, Executed, Unknown, Failed}
    case Awaiting => {Approved, Refused}
    case Approved => {Executed, Unknown, Failed}
    case Executed => {Verified, Failed}
    case Unknown => {Executed, Verified, Failed}
    case _ => {}
  }

  datatype VerdictKind = ALLOW | HOLD | REFUSE

  datatype Verdict = Verdict(kind: VerdictKind, ruleId: string, clause: string, approver: Option<Person>, terminal: bool)

  /** The shape a verdict must have to exist at all. An empty approver is no approver. */
  predicate WellFormed(v: Verdict) {
    && v.ruleId != "" && v.clause != ""
    && (v.kind == HOLD <==> v.approver.Some?)
    && (v.approver.Some? ==> v.approver.value != "")
    && (v.terminal ==> v.kind == REFUSE)
  }

  /** An action's target; "" stands for a key the target does not have. */
  datatype Target = Target(system: string, subject: string, entitlement: string, repo: string, permission: string,
                           origin: string)

  /** What params_hash is computed over. */
  datatype Params = Params(kind: string, target: Target)

  /** What an idempotency key is computed over. */
  datatype Key = Key(run: RunId, action: ActionId, params: Params)

  /** The value of an action at one moment: what the capsule and the actions table store. */
  datatype ActionView = ActionView(id: ActionId, params: Params, verdict: Option<VerdictKind>, ruleId: Option<string>,
                                   approver: Option<Person>, state: ActionState)

  function Fresh(id: ActionId, params: Params): ActionView {
    ActionView(id, params, None, None, None, Planned)
  }

  predicate CanMove(a: ActionView, to: ActionState) {
    && (a.verdict == Some(REFUSE) ==> to == Refused)
    && to in ActionTransitions(a.state)
  }

  function Move(a: ActionView, to: ActionState): ActionView {
    if CanMove(a, to) then a.(state := to) else a
  }

  /** A fresh action after its verdict is stamped. */
  function Stamped(id: ActionId, params: Params, v: Verdict): ActionView {
    ActionView(id, params, Some(v.kind), Some(v.ruleId), v.approver,
               match v.kind case ALLOW => Planned case HOLD => Awaiting case REFUSE => Refused)
  }

  /** The verdict and state combinations that stamping and the rail's stages produce. */
  predicate Lawful(a: ActionView) {
    match a.verdict
    case None => a.state == Planned
    case Some(ALLOW) => a.state in {Planned, Executed, Unknown, Failed, Verified}
    case Some(HOLD) => a.state != Planned && a.approver.Some?
    case Some(REFUSE) => a.state == Refused
  }

  class Action {
    const id: ActionId
    const params: Params
    var verdict: Option<VerdictKind>
    var ruleId: Option<string>
    var approver: Option<Person>
    var state: ActionState

    constructor (id: ActionId, params: Params)
      ensures View() == Fresh(id, params)
    {
      this.id, this.params := id, params;
      verdict, ruleId, approver, state := None, None, None, Planned;
    }

    /** Rebuilds an action from its stored value (the capsule is passed by value). */
    constructor Load(v: ActionView)
      ensures View() == v
    {
      id, params := v.id, v.params;
      verdict, ruleId, approver, state := v.verdict, v.ruleId, v.approver, v.state;
    }

    function View(): ActionView
      reads this
    {
      ActionView(id, params, verdict, ruleId, approver, state)
    }

    /** Moves to a new state, or raises (ok is false) and changes nothing. */
    method Transition(to: ActionState) returns (ok: bool)
      modifies this`state
      ensures ok == CanMove(old(View()), to)
      ensures View() == Move(old(View()), to)
    {
      if verdict == Some(REFUSE) && to != Refused {
        return false;
      }
      if to !in ActionTransitions(state) {
        return false;
      }
      state := to;
      return true;
    }

    /** Stamps a verdict once. A second verdict raises and changes nothing. */
    method ApplyVerdict(v: Verdict) returns (ok: bool)
      requires WellFormed(v)
      modifies this
      ensures old(verdict).Some? ==> !ok && View() == old(View())
      ensures old(verdict).None? ==>
                var s := old(View()).(verdict := Some(v.kind), ruleId := Some(v.ruleId), approver := v.approver);
                var to := Stamped(id, params, v).state;
                ok == (v.kind == ALLOW || CanMove(s, to)) && View() == if v.kind == ALLOW then s else Move(s, to)
      ensures old(View()) == Fresh(id, params) ==> ok && View() == Stamped(id, params, v)
    {
      if verdict.Some? {
        return false;
      }
      verdict, ruleId, approver := Some(v.kind), Some(v.ruleId), v.approver;
      ok := true;
      if v.kind == REFUSE {
        ok := Transition(Refused);
      } else if v.kind == HOLD {
        ok := Transition(Awaiting);
      }
    }
  }

  /** The state reached by a sequence of transition calls, each of which may raise and be ignored. */
  function Driven(a: ActionView, tos: seq<ActionState>): ActionView
    decreases |tos|
  {
    if tos == [] then a else Driven(Move(a, tos[0]), tos[1..])
  }

  predicate Written(s: ActionState) { s in {Executed, Unknown, Verified} }

  /** Every pair of states between which an action may move, and no other. */
  lemma MovesAre(from: ActionState, to: ActionState)
    ensures to in ActionTransitions(from) <==>
            (from, to) in {(Planned, Awaiting), (Planned, Refused), (Planned, Executed), (Planned, Unknown), (Planned, Failed),
                           (Awaiting, Approved), (Awaiting, Refused),
                           (Approved, Executed), (Approved, Unknown), (Approved, Failed),
                           (Executed, Verified), (Executed, Failed),
                           (Unknown, Executed), (Unknown, Verified), (Unknown, Failed)}
    ensures from in {Refused, Verified, Failed} <==> ActionTransitions(from) == {}
  {
    assert from in {Planned, Unknown} ==> Executed in ActionTransitions(from);
    assert from == Awaiting ==> Approved in ActionTransitions(from);
    assert from in {Approved, Executed} ==> Failed in ActionTransitions(from);
  }

  /** Whatever transitions are attempted on a stamped action: a refusal stays refused, a held action is never written
      without having been approved on the way, and `verified` is never reached except through a write. */
  lemma {:induction false} DrivenIsGoverned(a: ActionView, tos: seq<ActionState>)
    requires a.verdict.Some?
    ensures Driven(a, tos) == a.(state := Driven(a, tos).state)
    ensures a.verdict == Some(REFUSE) && a.state == Refused ==> Driven(a, tos) == a
    ensures a.state == Awaiting && Written(Driven(a, tos).state) ==> Approved in tos
    ensures a.state == Refused || a.state == Verified || a.state == Failed ==> Driven(a, tos) == a
    ensures !Written(a.state) && Driven(a, tos).state == Verified ==> Executed in tos || Unknown in tos
    decreases |tos|
  {
    if tos != [] {
      DrivenIsGoverned(Move(a, tos[0]), tos[1..]);
      assert forall t :: t in tos[1..] ==> t in tos;
      assert tos[0] in tos;
    }
  }

  // --- runs -----------------------------------------------------------------------------------------------------

  datatype RunStatus = Running | NeedsInput | AwaitingApproval | Partial | Done | RunFailed

  function RunTransitions(s: RunStatus): set<RunStatus> {
    match s
    case Running => {NeedsInput, AwaitingApproval, Partial, Done, RunFailed}
    case NeedsInput => {Running, RunFailed}
    case AwaitingApproval => {Running, Partial, Done, RunFailed}
    case _ => {}
  }

  datatype Stage = Discover | Compile | Govern | Plan | Handoff | Approve | Execute | Verify | Finalize

  const STAGE_ORDER: seq<Stage> := [Discover, Compile, Govern, Plan, Handoff, Approve, Execute, Verify, Finalize]

  function StageIndex(s: Stage): (i: nat)
    ensures i < |STAGE_ORDER| && STAGE_ORDER[i] == s
  {
    match s
    case Discover => 0 case Compile => 1 case Govern => 2 case Plan => 3 case Handoff => 4
    case Approve => 5 case Execute => 6 case Verify => 7 case Finalize => 8
  }

  /** The only stage that may follow `current`. */
  function NextStage(current: Option<Stage>): Option<Stage> {
    match current
    case None => Some(STAGE_ORDER[0])
    case Some(s) => if StageIndex(s) + 1 < |STAGE_ORDER| then Some(STAGE_ORDER[StageIndex(s) + 1]) else None
  }

  /** The stage itself if it may follow, or None where the check raises. */
  function CheckStageOrder(current: Option<Stage>, to: Stage): Option<Stage> {
    if NextStage(current) == Some(to) then Some(to) else None
  }

  predicate Follows(current: Option<Stage>, stages: seq<Stage>)
    decreases |stages|
  {
    stages == [] || (CheckStageOrder(current, stages[0]).Some? && Follows(Some(stages[0]), stages[1..]))
  }

  lemma NextAt(i: nat)
    requires i <= |STAGE_ORDER|
    ensures NextStage(if i == 0 then None else Some(STAGE_ORDER[i - 1])) ==
            if i < |STAGE_ORDER| then Some(STAGE_ORDER[i]) else None
  {
    assert i > 0 ==> StageIndex(STAGE_ORDER[i - 1]) == i - 1;
  }

  lemma PrefixStep<T>(stages: seq<T>, order: seq<T>)
    requires stages != []
    ensures stages <= order <==> order != [] && stages[0] == order[0] && stages[1..] <= order[1..]
  {
    if order != [] && stages[0] == order[0] && stages[1..] <= order[1..] {
      assert forall k :: 0 < k < |stages| ==> stages[k] == stages[1..][k - 1] == order[1..][k - 1] == order[k];
    }
  }

  lemma {:induction false} FollowsFrom(i: nat, stages: seq<Stage>)
    requires i <= |STAGE_ORDER|
    ensures Follows(if i == 0 then None else Some(STAGE_ORDER[i - 1]), stages) <==> stages <= STAGE_ORDER[i..]
    decreases |stages|
  {
    hide NextStage;
    if stages != [] {
      NextAt(i);
      PrefixStep(stages, STAGE_ORDER[i..]);
      if i < |STAGE_ORDER| {
        assert STAGE_ORDER[i..][1..] == STAGE_ORDER[i + 1..];
        FollowsFrom(i + 1, stages[1..]);
      }
    }
  }

  /** Stages that pass the check one after another are a prefix of the fixed order: no skip, no reversal, no repeat. */
  lemma StagesAreInOrder(stages: seq<Stage>)
    ensures Follows(None, stages) <==> stages <= STAGE_ORDER
  {
    FollowsFrom(0, stages);
    assert STAGE_ORDER[0..] == STAGE_ORDER;
  }
}
