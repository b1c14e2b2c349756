/** A model call by itself, as Router.dfy computes it, is one of the interleavings of Budget.dfy. */
module LoneCall {
  import opened Budget
  import opened Router

  function CallerOf(env: Env, chain: seq<Tier>, held: nat, pc: Pc): Caller {
    Caller(env.run, env.bytes, env.maxTokens, chain, held, pc)
  }

  /** The call is between two tiers, or finished, and holds nothing. */
  function Outside(env: Env, w: World, rows: seq<LedgerRow>, chain: seq<Tier>, pc: Pc): World {
    World(rows, map[], w.callers[env.id := CallerOf(env, chain, 0, pc)], w.next)
  }

  /** The call holds the locks of a tier. */
  function Inside(env: Env, w: World, rows: seq<LedgerRow>, chain: seq<Tier>, tier: Tier, pc: Pc): World {
    var keys := Keys(env.run, tier);
    World(rows, map k | k in keys :: env.id, w.callers[env.id := CallerOf(env, chain, |keys|, pc)], w.next)
  }

  lemma {:induction false} RunJoins(cfg: Config, w: World, a: seq<Step>, b: seq<Step>)
    ensures Run(cfg, w, a + b) == Run(cfg, Run(cfg, w, a), b)
    decreases |a|
  {
    hide Do;
    if a == [] {
      assert a + b == b;
    } else {
      RunJoins(cfg, Do(cfg, w, a[0]), a[1..], b);
      assert (a + b)[0] == a[0] && (a + b)[1..] == a[1..] + b;
    }
  }

  lemma OneStep(cfg: Config, w: World, s: Step)
    ensures Run(cfg, w, [s]) == Do(cfg, w, s)
  {
    hide Do;
    assert [s][1..] == [];
  }

  /** The call holds the first i of the locks of a tier. */
  function Waiting(env: Env, w: World, rows: seq<LedgerRow>, rest: seq<Tier>, tier: Tier, i: nat): World
    requires i <= |Keys(env.run, tier)|
  {
    World(rows, map k | k in Keys(env.run, tier)[..i] :: env.id,
          w.callers[env.id := CallerOf(env, rest, i, Locking(tier))], w.next)
  }

  lemma TakesNext(env: Env, w: World, rows: seq<LedgerRow>, rest: seq<Tier>, tier: Tier, i: nat)
    requires i < |Keys(env.run, tier)|
    ensures Do(env.cfg, Waiting(env, w, rows, rest, tier, i), Acquire(env.id)) == Waiting(env, w, rows, rest, tier, i + 1)
  {
    hide RunLock;
    var keys := Keys(env.run, tier);
    var now, next := Waiting(env, w, rows, rest, tier, i), Waiting(env, w, rows, rest, tier, i + 1);
    assert keys[i..][0] == keys[i] && keys[i] !in keys[..i];
    assert keys[..i + 1] == keys[..i] + [keys[i]];
    assert now.locks[keys[i] := env.id] == next.locks;
    assert now.callers[env.id := CallerOf(env, rest, i + 1, Locking(tier))] == next.callers;
  }

  lemma GetsIn(env: Env, w: World, rows: seq<LedgerRow>, rest: seq<Tier>, tier: Tier)
    ensures Do(env.cfg, Waiting(env, w, rows, rest, tier, |Keys(env.run, tier)|), Acquire(env.id)) ==
            Inside(env, w, rows, rest, tier, Guarded(tier))
  {
    hide Keys;
    var keys := Keys(env.run, tier);
    assert keys[..|keys|] == keys && keys[|keys|..] == [];
  }

  lemma Chooses(env: Env, w: World, rows: seq<LedgerRow>, rest: seq<Tier>, tier: Tier)
    requires tier != T4
    ensures Do(env.cfg, Outside(env, w, rows, [tier] + rest, Choosing), Choose(env.id)) == Waiting(env, w, rows, rest, tier, 0)
  {
    assert ([tier] + rest)[1..] == rest && Keys(env.run, tier)[..0] == [];
  }

  /** The call takes the locks of the tier in their order. */
  lemma Locks(env: Env, w: World, rows: seq<LedgerRow>, rest: seq<Tier>, tier: Tier) returns (steps: seq<Step>)
    requires tier != T4
    ensures Run(env.cfg, Outside(env, w, rows, [tier] + rest, Choosing), steps) ==
            Inside(env, w, rows, rest, tier, Guarded(tier))
  {
    hide Keys, Waiting, Inside, Outside, Do;
    var start := Outside(env, w, rows, [tier] + rest, Choosing);
    steps := [Choose(env.id)];
    OneStep(env.cfg, start, Choose(env.id));
    Chooses(env, w, rows, rest, tier);
    for i := 0 to |Keys(env.run, tier)|
      invariant Run(env.cfg, start, steps) == Waiting(env, w, rows, rest, tier, i)
    {
      TakesNext(env, w, rows, rest, tier, i);
      RunJoins(env.cfg, start, steps, [Acquire(env.id)]);
      OneStep(env.cfg, Waiting(env, w, rows, rest, tier, i), Acquire(env.id));
      steps := steps + [Acquire(env.id)];
    }
    GetsIn(env, w, rows, rest, tier);
    RunJoins(env.cfg, start, steps, [Acquire(env.id)]);
    OneStep(env.cfg, Run(env.cfg, start, steps), Acquire(env.id));
    steps := steps + [Acquire(env.id)];
  }

  lemma Leaves(env: Env, w: World, rows: seq<LedgerRow>, chain: seq<Tier>, tier: Tier, answered: bool)
    ensures Do(env.cfg, Inside(env, w, rows, chain, tier, Leaving(answered)), Unlock(env.id)) ==
            Outside(env, w, rows, chain, if answered then Finished else Choosing)
  {
  }

  /** Both checks: as Router's, on what the ledger holds. */
  lemma Checks(env: Env, w: World, rows: seq<LedgerRow>, chain: seq<Tier>, tier: Tier)
    ensures Run(env.cfg, Inside(env, w, rows, chain, tier, Guarded(tier)), [CheckRun(env.id), CheckTier(env.id)]) ==
            if BudgetRefusal(env, rows, tier) == Allowed then Inside(env, w, rows, chain, tier, Calling(tier, false))
            else Inside(env, w, rows + [Row(env, tier, 0, RefusedRow)], chain, tier, Leaving(false))
  {
    hide BudgetRefusal, Inside, Do;
    var start := Inside(env, w, rows, chain, tier, Guarded(tier));
    var next := Do(env.cfg, start, CheckRun(env.id));
    RunJoins(env.cfg, start, [CheckRun(env.id)], [CheckTier(env.id)]);
    assert [CheckRun(env.id)] + [CheckTier(env.id)] == [CheckRun(env.id), CheckTier(env.id)];
    OneStep(env.cfg, start, CheckRun(env.id));
    OneStep(env.cfg, next, CheckTier(env.id));
    ChecksRun(env, w, rows, chain, tier);
    if BudgetRefusal(env, rows, tier) != OverRunBudget {
      ChecksTier(env, w, rows, chain, tier);
    }
  }

  /** The run's check, and that one refused there has no other. */
  lemma ChecksRun(env: Env, w: World, rows: seq<LedgerRow>, chain: seq<Tier>, tier: Tier)
    ensures var next := Do(env.cfg, Inside(env, w, rows, chain, tier, Guarded(tier)), CheckRun(env.id));
            if BudgetRefusal(env, rows, tier) == OverRunBudget
            then next == Inside(env, w, rows + [Row(env, tier, 0, RefusedRow)], chain, tier, Leaving(false)) &&
                 Do(env.cfg, next, CheckTier(env.id)) == next
            else next == Inside(env, w, rows, chain, tier, RunChecked(tier))
  {
    hide RunSpend, TierSpend, Reserve, Keys;
  }

  lemma ChecksTier(env: Env, w: World, rows: seq<LedgerRow>, chain: seq<Tier>, tier: Tier)
    requires BudgetRefusal(env, rows, tier) != OverRunBudget
    ensures Do(env.cfg, Inside(env, w, rows, chain, tier, RunChecked(tier)), CheckTier(env.id)) ==
            if BudgetRefusal(env, rows, tier) == Allowed then Inside(env, w, rows, chain, tier, Calling(tier, false))
            else Inside(env, w, rows + [Row(env, tier, 0, RefusedRow)], chain, tier, Leaving(false))
  {
    hide RunSpend, TierSpend, Reserve, Keys;
  }

  function ReplyOf(a: Answer): Reply {
    match a
    case Fine(u) => Reply.Answered(u)
    case Raised(e) => match Classify(e) case RateLimit => RateLimited case FailOver => FailsOver case Stop => Fatal
  }

  /** One answer of the provider. */
  lemma Responds(env: Env, w: World, rows: seq<LedgerRow>, chain: seq<Tier>, tier: Tier, retried: bool)
    requires Honest(env)
    ensures var answer := env.answer(tier, if retried then 1 else 0);
            var kind := if answer.Fine? then OkRow
                        else if Classify(answer.e) == FailOver || (Classify(answer.e) == RateLimit && retried) then FailoverRow
                        else ErrorRow;
            var row := Row(env, tier, if answer.Fine? then Cost(answer.usage) else 0, kind);
            Do(env.cfg, Inside(env, w, rows, chain, tier, Calling(tier, retried)), Respond(env.id, ReplyOf(answer))) ==
            Inside(env, w, rows + [row], if answer.Raised? && Classify(answer.e) == Stop then [] else chain, tier,
                   if answer.Raised? && Classify(answer.e) == RateLimit && !retried then Calling(tier, true)
                   else Leaving(answer.Fine?))
  {
    hide Classify, Cost, Within, Keys;
  }

  /** The attempts at a tier, the second one after a 429. */
  lemma Attempts(env: Env, w: World, rows: seq<LedgerRow>, chain: seq<Tier>, tier: Tier, retried: bool)
    returns (steps: seq<Step>)
    requires Honest(env)
    ensures var (tried, more) := AttemptFrom(env, tier, retried);
            Run(env.cfg, Inside(env, w, rows, chain, tier, Calling(tier, retried)), steps) ==
            Inside(env, w, rows + more, if tried.Stopped? then [] else chain, tier, Leaving(tried.Served?))
    decreases !retried
  {
    hide Classify, Cost, Inside, Do, Honest, Row;
    var answer := env.answer(tier, if retried then 1 else 0);
    var s := Respond(env.id, ReplyOf(answer));
    var start := Inside(env, w, rows, chain, tier, Calling(tier, retried));
    OneStep(env.cfg, start, s);
    Responds(env, w, rows, chain, tier, retried);
    steps := [s];
    if answer.Raised? && Classify(answer.e) == RateLimit && !retried {
      var row := Row(env, tier, 0, ErrorRow);
      var more := Attempts(env, w, rows + [row], chain, tier, true);
      RunJoins(env.cfg, start, [s], more);
      steps := [s] + more;
      assert rows + [row] + AttemptFrom(env, tier, true).1 == rows + ([row] + AttemptFrom(env, tier, true).1);
    }
  }

  /** A tier that is neither cooling nor the replay: either refused, or attempted. */
  lemma TierIsARun(env: Env, w: World, rows: seq<LedgerRow>, rest: seq<Tier>, tier: Tier) returns (steps: seq<Step>)
    requires Honest(env) && tier != T4
    ensures var (tried, more) := if BudgetRefusal(env, rows, tier) == Allowed then AttemptFrom(env, tier, false)
                                 else (FailedOver, [Row(env, tier, 0, RefusedRow)]);
            Run(env.cfg, Outside(env, w, rows, [tier] + rest, Choosing), steps) ==
            Outside(env, w, rows + more, if tried.Stopped? then [] else rest, if tried.Served? then Finished else Choosing)
  {
    hide BudgetRefusal, AttemptFrom, Inside, Outside, Do, Honest;
    var start := Outside(env, w, rows, [tier] + rest, Choosing);
    var a := Locks(env, w, rows, rest, tier);
    var b := [CheckRun(env.id), CheckTier(env.id)];
    Checks(env, w, rows, rest, tier);
    RunJoins(env.cfg, start, a, b);
    var inside := Run(env.cfg, start, a + b);
    if BudgetRefusal(env, rows, tier) == Allowed {
      var c := Attempts(env, w, rows, rest, tier, false);
      var (tried, more) := AttemptFrom(env, tier, false);
      RunJoins(env.cfg, start, a + b, c);
      Leaves(env, w, rows + more, if tried.Stopped? then [] else rest, tier, tried.Served?);
      steps := a + b + c;
    } else {
      Leaves(env, w, rows + [Row(env, tier, 0, RefusedRow)], rest, tier, false);
      steps := a + b;
    }
    RunJoins(env.cfg, start, steps, [Unlock(env.id)]);
    OneStep(env.cfg, Run(env.cfg, start, steps), Unlock(env.id));
    steps := steps + [Unlock(env.id)];
  }

  /** Down the chain, from where the call is between two tiers. */
  lemma {:induction false} ChainIsARun(env: Env, w: World, st: State, chain: seq<Tier>, runRefused: bool)
    returns (steps: seq<Step>, left: seq<Tier>)
    requires Honest(env)
    ensures Run(env.cfg, Outside(env, w, st.rows, chain, Choosing), steps) ==
            Outside(env, w, CallFrom(env, st, chain, runRefused).0.rows, left, Finished)
    decreases |chain|
  {
    hide AttemptFrom, BudgetRefusal, IsOpen, Outside, Do, Honest, Run;
    var start := Outside(env, w, st.rows, chain, Choosing);
    if chain == [] {
      steps, left := [Choose(env.id)], [];
      GivesUp(env, w, st.rows);
      OneStep(env.cfg, start, steps[0]);
      return;
    }
    var tier, rest := chain[0], chain[1..];
    assert chain == [tier] + rest;
    var more: seq<Step>;
    if tier == T4 {
      steps, left := [Replay(env.id, env.recorded)], chain;
      Replays(env, w, st.rows, chain);
      OneStep(env.cfg, start, steps[0]);
      return;
    } else if IsOpen(env, st.tripped, tier) {
      steps := [Skip(env.id)];
      Skips(env, w, st.rows, tier, rest);
      OneStep(env.cfg, start, steps[0]);
      more, left := ChainIsARun(env, w, st, rest, runRefused);
    } else {
      steps := TierIsARun(env, w, st.rows, rest, tier);
      var refusal := BudgetRefusal(env, st.rows, tier);
      if refusal != Allowed {
        more, left := ChainIsARun(env, w, st.(rows := st.rows + [Row(env, tier, 0, RefusedRow)]), rest,
                                  runRefused || refusal == OverRunBudget);
      } else {
        var (tried, rows) := AttemptFrom(env, tier, false);
        match tried {
          case Served(u) =>
            left := rest;
            return;
          case FailedOver =>
            more, left := ChainIsARun(env, w, State(st.rows + rows, st.tripped[tier := env.clock(tier, true)]), rest, runRefused);
          case Stopped =>
            more, left := [Choose(env.id)], [];
            GivesUp(env, w, st.rows + rows);
            OneStep(env.cfg, Outside(env, w, st.rows + rows, [], Choosing), more[0]);
        }
      }
    }
    RunJoins(env.cfg, start, steps, more);
    steps := steps + more;
  }

  lemma GivesUp(env: Env, w: World, rows: seq<LedgerRow>)
    ensures Do(env.cfg, Outside(env, w, rows, [], Choosing), Choose(env.id)) == Outside(env, w, rows, [], Finished)
  {
  }

  lemma Replays(env: Env, w: World, rows: seq<LedgerRow>, chain: seq<Tier>)
    requires chain != [] && chain[0] == T4
    ensures Do(env.cfg, Outside(env, w, rows, chain, Choosing), Replay(env.id, env.recorded)) ==
            Outside(env, w, rows + [Row(env, T4, 0, if env.recorded then OkRow else ErrorRow)], chain, Finished)
  {
  }

  lemma Skips(env: Env, w: World, rows: seq<LedgerRow>, tier: Tier, rest: seq<Tier>)
    ensures Do(env.cfg, Outside(env, w, rows, [tier] + rest, Choosing), Skip(env.id)) == Outside(env, w, rows, rest, Choosing)
  {
    assert ([tier] + rest)[1..] == rest;
  }

  /** A call that starts while nobody holds a lock and is not interrupted is one of the interleavings: the same rows, no lock
      left, the caller finished and every other caller as it was. One that asks for too many tokens does not start. */
  lemma CallIsARun(env: Env, w: World, tripped: map<Tier, int>, chain: seq<Tier>)
    requires Honest(env) && w.locks == map[] && env.id == w.next
    ensures if env.maxTokens > env.cfg.maxTokensCap
            then Run(env.cfg, w, [Start(env.run, env.bytes, env.maxTokens, chain)]) == w
            else
              exists steps, left ::
                Run(env.cfg, w, steps) ==
                World(CallFrom(env, State(w.rows, tripped), chain, false).0.rows, map[],
                      w.callers[w.next := Caller(env.run, env.bytes, env.maxTokens, left, 0, Finished)], w.next + 1)
  {
    hide CallFrom, Honest;
    var s := Start(env.run, env.bytes, env.maxTokens, chain);
    OneStep(env.cfg, w, s);
    if env.maxTokens <= env.cfg.maxTokensCap {
      var base := w.(next := w.next + 1);
      assert Do(env.cfg, w, s) == Outside(env, base, w.rows, chain, Choosing);
      var steps, left := ChainIsARun(env, base, State(w.rows, tripped), chain, false);
      RunJoins(env.cfg, w, [s], steps);
      assert Run(env.cfg, w, [s] + steps) ==
             World(CallFrom(env, State(w.rows, tripped), chain, false).0.rows, map[],
                   w.callers[w.next := Caller(env.run, env.bytes, env.maxTokens, left, 0, Finished)], w.next + 1);
    }
  }
}
