/** Finalize: the run's status and tally are computed from its actions, never chosen. */
module FinalizeStage {
  import opened Models

  function CountVerdict(actions: seq<ActionView>, v: VerdictKind): nat {
    if actions == [] then 0 else (if actions[0].verdict == Some(v) then 1 else 0) + CountVerdict(actions[1..], v)
  }

  function CountState(actions: seq<ActionView>, s: ActionState): nat {
    if actions == [] then 0 else (if actions[0].state == s then 1 else 0) + CountState(actions[1..], s)
  }

  datatype Tally = Tally(allow: nat, hold: nat, refuse: nat, verified: nat, failed: nat)

  function TallyOf(actions: seq<ActionView>): Tally {
    Tally(CountVerdict(actions, ALLOW), CountVerdict(actions, HOLD), CountVerdict(actions, REFUSE),
          CountState(actions, Verified), CountState(actions, Failed) + CountState(actions, Unknown))
  }

  predicate SomeState(actions: seq<ActionView>, states: set<ActionState>) {
    exists i :: 0 <= i < |actions| && actions[i].state in states
  }

  function FinalStatus(actions: seq<ActionView>, blockers: seq<string>): RunStatus {
    if SomeState(actions, {Awaiting}) then AwaitingApproval
    else if blockers != [] || SomeState(actions, {Refused, Failed, Unknown, Planned, Approved, Executed}) then Partial
    else Done
  }

  /** Done is exactly: no blocker is open and every action is verified. Awaiting is exactly: someone still decides. */
  lemma FinalStatusIsEarned(actions: seq<ActionView>, blockers: seq<string>)
    ensures FinalStatus(actions, blockers) == Done <==>
            blockers == [] && forall i :: 0 <= i < |actions| ==> actions[i].state == Verified
    ensures FinalStatus(actions, blockers) == AwaitingApproval <==>
            exists i :: 0 <= i < |actions| && actions[i].state == Awaiting
    ensures FinalStatus(actions, blockers) in RunTransitions(Running)
  {
    if !SomeState(actions, {Awaiting}) && !SomeState(actions, {Refused, Failed, Unknown, Planned, Approved, Executed}) {
      forall i | 0 <= i < |actions| ensures actions[i].state == Verified {
        assert actions[i].state !in {Awaiting} && actions[i].state !in {Refused, Failed, Unknown, Planned, Approved, Executed};
      }
    }
    if i :| 0 <= i < |actions| && actions[i].state == Awaiting {
      assert actions[i].state in {Awaiting};
    }
  }

  /** Once every action has its verdict, the tally loses none. */
  lemma {:induction false} TallyIsComplete(actions: seq<ActionView>)
    requires forall i :: 0 <= i < |actions| ==> actions[i].verdict.Some?
    ensures var t := TallyOf(actions); t.allow + t.hold + t.refuse == |actions|
  {
    if actions != [] {
      match actions[0].verdict.value {
        case ALLOW => case HOLD => case REFUSE =>
      }
      TallyIsComplete(actions[1..]);
    }
  }

  /** How many actions have a property. */
  ghost function Having(actions: seq<ActionView>, p: ActionView -> bool): set<nat> {
    set i: nat | 0 <= i < |actions| && p(actions[i])
  }

  lemma {:induction false} CountsAre(actions: seq<ActionView>, v: VerdictKind, st: ActionState)
    ensures CountVerdict(actions, v) == |Having(actions, (a: ActionView) => a.verdict == Some(v))|
    ensures CountState(actions, st) == |Having(actions, (a: ActionView) => a.state == st)|
  {
    if actions != [] {
      CountsAre(actions[1..], v, st);
      HavingFirst(actions, (a: ActionView) => a.verdict == Some(v));
      HavingFirst(actions, (a: ActionView) => a.state == st);
    }
  }

  lemma HavingFirst(actions: seq<ActionView>, p: ActionView -> bool)
    requires actions != []
    ensures |Having(actions, p)| == (if p(actions[0]) then 1 else 0) + |Having(actions[1..], p)|
  {
    var tail := Having(actions[1..], p);
    Shifted(tail);
    var later := Shift(tail);
    assert forall i :: 1 <= i < |actions| ==> actions[i] == actions[1..][i - 1];
    forall i: nat | i in Having(actions, p) ensures i == 0 || i in later {
      if i > 0 {
        assert i - 1 in tail;
      }
    }
    if p(actions[0]) {
      assert Having(actions, p) == {0} + later;
    } else {
      assert Having(actions, p) == later;
    }
  }

  ghost function Shift(s: set<nat>): set<nat> { set i: nat | i in s :: i + 1 }

  lemma {:induction false} Shifted(s: set<nat>)
    ensures |Shift(s)| == |s|
    decreases |s|
  {
    if s != {} {
      var x :| x in s;
      Shifted(s - {x});
      forall y | y in Shift(s) ensures y in Shift(s - {x}) + {x + 1} {
        var i :| i in s && y == i + 1;
        assert i != x ==> i in s - {x};
      }
      assert x in s && x + 1 in Shift(s);
      assert Shift(s) == Shift(s - {x}) + {x + 1};
    } else {
      assert Shift(s) == {};
    }
  }

  /** The tally that goes into the receipt: how many were allowed, held and refused; how many are verified; and how many failed
      or are unknown. */
  lemma TallyMeans(actions: seq<ActionView>)
    ensures var t := TallyOf(actions);
            && t.allow == |Having(actions, (a: ActionView) => a.verdict == Some(ALLOW))|
            && t.hold == |Having(actions, (a: ActionView) => a.verdict == Some(HOLD))|
            && t.refuse == |Having(actions, (a: ActionView) => a.verdict == Some(REFUSE))|
            && t.verified == |Having(actions, (a: ActionView) => a.state == Verified)|
            && t.failed == |Having(actions, (a: ActionView) => a.state == Failed || a.state == Unknown)|
  {
    CountsAre(actions, ALLOW, Verified);
    CountsAre(actions, HOLD, Failed);
    CountsAre(actions, REFUSE, Unknown);
    var f, u := Having(actions, (a: ActionView) => a.state == Failed), Having(actions, (a: ActionView) => a.state == Unknown);
    assert Having(actions, (a: ActionView) => a.state == Failed || a.state == Unknown) == f + u;
    assert f * u == {};
  }
}
