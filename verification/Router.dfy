/** One model call down the tiers: breakers, the spend check, one retry of a 429, failover, and one ledger row per
    attempt. Concurrency is the subject of Budget.dfy; here a call runs by itself. */
module Router {
  import opened Models
  import opened Budget

  // --- failures -------------------------------------------------------------------------------------------------

  /** An exception of the SDK client, as far as classification looks at it. */
  datatype Exc = ConnectionError | StatusError(code: int, billingError: bool, saysCreditBalance: bool) | OtherException

  datatype Failure = RateLimit | FailOver | Stop

  function Classify(e: Exc): Failure {
    match e
    case ConnectionError => FailOver
    case StatusError(code, billing, credit) =>
      if code == 429 then RateLimit
      else if code >= 500 || billing || code == 402 || (code == 400 && credit) then FailOver
      else Stop
    case OtherException => Stop
  }

  datatype Answer = Fine(usage: Usage) | Raised(e: Exc)

  /** What the world does during a call: each tier's answer to the first and the second attempt, the breaker's clock
      when the tier is considered and when it is tripped, and whether a replay is on record. */
  datatype Env = Env(cfg: Config, cooldown: int, run: Option<nat>, bytes: nat, maxTokens: nat, id: nat,
                     answer: (Tier, nat) -> Answer, clock: (Tier, bool) -> int, recorded: bool)

  function Row(env: Env, tier: Tier, cost: nat, kind: RowKind): LedgerRow { LedgerRow(env.run, tier, cost, kind, env.id) }

  // --- one tier -------------------------------------------------------------------------------------------------

  datatype Tried = Served(usage: Usage) | FailedOver | Stopped

  /** What an attempt comes to, and the rows it leaves. */
  function AttemptFrom(env: Env, tier: Tier, retried: bool): (Tried, seq<LedgerRow>)
    decreases !retried
  {
    match env.answer(tier, if retried then 1 else 0)
    case Fine(u) => (Served(u), [Row(env, tier, Cost(u), OkRow)])
    case Raised(e) =>
      match Classify(e)
      case Stop => (Stopped, [Row(env, tier, 0, ErrorRow)])
      case FailOver => (FailedOver, [Row(env, tier, 0, FailoverRow)])
      case RateLimit =>
        if retried then (FailedOver, [Row(env, tier, 0, FailoverRow)])
        else
          var (t, rows) := AttemptFrom(env, tier, true);
          (t, [Row(env, tier, 0, ErrorRow)] + rows)
  }

  // --- the whole call -------------------------------------------------------------------------------------------

  datatype Refusal = Allowed | OverRunBudget | OverBedrockCap

  function BudgetRefusal(env: Env, rows: seq<LedgerRow>, tier: Tier): Refusal {
    if env.run.Some? && RunSpend(rows, env.run.value) + Reserve(env.bytes, env.maxTokens) > env.cfg.runBudget
    then OverRunBudget
    else if tier == T3 && TierSpend(rows, T3) + Reserve(env.bytes, env.maxTokens) > env.cfg.bedrockCap
    then OverBedrockCap
    else Allowed
  }

  function IsOpen(env: Env, tripped: map<Tier, int>, tier: Tier): bool {
    tier in tripped && env.clock(tier, false) - tripped[tier] < env.cooldown
  }

  datatype Outcome = Answered(tier: Tier, usage: Usage) | Replayed | ReplayMiss | BudgetExceeded | NoTierAvailable |
                     CallFailed(tier: Tier) | TooManyTokens

  datatype State = State(rows: seq<LedgerRow>, tripped: map<Tier, int>)

  function CallFrom(env: Env, st: State, chain: seq<Tier>, runRefused: bool): (State, Outcome)
    decreases |chain|
  {
    if chain == [] then (st, if runRefused then BudgetExceeded else NoTierAvailable)
    else
      var tier := chain[0];
      if tier == T4 then
        (st.(rows := st.rows + [Row(env, T4, 0, if env.recorded then OkRow else ErrorRow)]),
         if env.recorded then Replayed else ReplayMiss)
      else if IsOpen(env, st.tripped, tier) then CallFrom(env, st, chain[1..], runRefused)
      else
        var refusal := BudgetRefusal(env, st.rows, tier);
        if refusal != Allowed then
          CallFrom(env, st.(rows := st.rows + [Row(env, tier, 0, RefusedRow)]), chain[1..],
                   runRefused || refusal == OverRunBudget)
        else
          var (tried, rows) := AttemptFrom(env, tier, false);
          match tried
          case Served(u) => (State(st.rows + rows, st.tripped - {tier}), Outcome.Answered(tier, u))
          case FailedOver =>
            CallFrom(env, State(st.rows + rows, st.tripped[tier := env.clock(tier, true)]), chain[1..], runRefused)
          case Stopped => (State(st.rows + rows, st.tripped), CallFailed(tier))
  }

  class CircuitBreaker {
    const cooldown: int
    var openedAt: map<Tier, int>

    constructor (cooldown: int)
      ensures this.cooldown == cooldown && openedAt == map[]
    {
      this.cooldown, openedAt := cooldown, map[];
    }

    predicate Open(tier: Tier, now: int)
      reads this
    {
      tier in openedAt && now - openedAt[tier] < cooldown
    }

    /** The tier is skipped at exactly the moments before `now + cooldown`; every other tier is as it was. */
    method Trip(tier: Tier, now: int)
      modifies this
      ensures openedAt == old(openedAt)[tier := now]
      ensures forall m :: Open(tier, m) <==> m < now + cooldown
      ensures forall t, m :: t != tier ==> (Open(t, m) <==> old(Open(t, m)))
    {
      openedAt := openedAt[tier := now];
    }

    /** The tier may be called at every moment; every other tier is as it was. */
    method Reset(tier: Tier)
      modifies this
      ensures openedAt == old(openedAt) - {tier}
      ensures forall m :: !Open(tier, m)
      ensures forall t, m :: t != tier ==> (Open(t, m) <==> old(Open(t, m)))
    {
      openedAt := openedAt - {tier};
    }
  }

  class ModelRouter {
    const cfg: Config
    const breaker: CircuitBreaker
    var rows: seq<LedgerRow>

    constructor (cfg: Config, cooldown: int)
      ensures this.cfg == cfg && rows == [] && fresh(breaker) && breaker.openedAt == map[] && breaker.cooldown == cooldown
    {
      this.cfg, rows := cfg, [];
      breaker := new CircuitBreaker(cooldown);
    }

    lemma AttemptUnfolds(env: Env, tier: Tier, retried: bool)
      ensures AttemptFrom(env, tier, retried) ==
              var answer := env.answer(tier, if retried then 1 else 0);
              if answer.Fine? then (Served(answer.usage), [Row(env, tier, Cost(answer.usage), OkRow)])
              else
                var kind := Classify(answer.e);
                if kind == Stop then (Stopped, [Row(env, tier, 0, ErrorRow)])
                else if kind == FailOver || retried then (FailedOver, [Row(env, tier, 0, FailoverRow)])
                else (AttemptFrom(env, tier, true).0, [Row(env, tier, 0, ErrorRow)] + AttemptFrom(env, tier, true).1)
    {
      hide Row, Cost;
    }

    /** A 429 is waited out once; everything else ends the attempt. */
    method Attempt(env: Env, tier: Tier) returns (r: Tried)
      modifies this`rows
      ensures r == AttemptFrom(env, tier, false).0 && rows == old(rows) + AttemptFrom(env, tier, false).1
    {
      hide AttemptFrom, Row, Cost, Classify;
      var retried := false;
      ghost var before := rows;
      ghost var mine: seq<LedgerRow> := [];
      while true
        invariant rows == before + mine
        invariant AttemptFrom(env, tier, false).0 == AttemptFrom(env, tier, retried).0
        invariant AttemptFrom(env, tier, false).1 == mine + AttemptFrom(env, tier, retried).1
        decreases !retried
      {
        AttemptUnfolds(env, tier, retried);
        var answer := env.answer(tier, if retried then 1 else 0);
        if answer.Fine? {
          rows := rows + [Row(env, tier, Cost(answer.usage), OkRow)];
          return Served(answer.usage);
        }
        var kind := Classify(answer.e);
        var willRetry := kind == RateLimit && !retried;
        rows := rows + [Row(env, tier, 0, if kind != Stop && !willRetry then FailoverRow else ErrorRow)];
        if !willRetry {
          return if kind == Stop then Stopped else FailedOver;
        }
        mine := mine + [Row(env, tier, 0, ErrorRow)];
        retried := true;
      }
      assert false;
    }

    /** Down the chain until a tier answers. */
    method Call(env: Env, chain: seq<Tier>) returns (r: Outcome)
      requires env.cfg == cfg && env.cooldown == breaker.cooldown
      modifies this`rows, breaker
      ensures (State(rows, breaker.openedAt), r) ==
              if env.maxTokens > cfg.maxTokensCap then (State(old(rows), old(breaker.openedAt)), TooManyTokens)
              else CallFrom(env, State(old(rows), old(breaker.openedAt)), chain, false)
    {
      if env.maxTokens > cfg.maxTokensCap {
        return TooManyTokens;
      }
      var runRefused := false;
      ghost var start := State(rows, breaker.openedAt);
      for i := 0 to |chain|
        invariant CallFrom(env, start, chain, false) == CallFrom(env, State(rows, breaker.openedAt), chain[i..], runRefused)
      {
        var tier := chain[i];
        assert chain[i..][0] == tier && chain[i..][1..] == chain[i + 1..];
        if tier == T4 {
          rows := rows + [Row(env, T4, 0, if env.recorded then OkRow else ErrorRow)];
          return if env.recorded then Replayed else ReplayMiss;
        }
        if breaker.Open(tier, env.clock(tier, false)) {
          continue;
        }
        var refusal := BudgetRefusal(env, rows, tier);
        if refusal != Allowed {
          rows := rows + [Row(env, tier, 0, RefusedRow)];
          runRefused := runRefused || refusal == OverRunBudget;
          continue;
        }
        var tried := Attempt(env, tier);
        match tried
        case Served(u) =>
          breaker.Reset(tier);
          return Outcome.Answered(tier, u);
        case FailedOver =>
          breaker.Trip(tier, env.clock(tier, true));
        case Stopped =>
          return CallFailed(tier);
      }
      return if runRefused then BudgetExceeded else NoTierAvailable;
    }
  }

  // --- what a call guarantees -----------------------------------------------------------------------------------

  function OkRows(rows: seq<LedgerRow>): nat {
    if rows == [] then 0 else OkRows(rows[..|rows| - 1]) + if rows[|rows| - 1].kind == OkRow then 1 else 0
  }

  lemma {:induction false} OkRowsAdd(a: seq<LedgerRow>, b: seq<LedgerRow>)
    ensures OkRows(a + b) == OkRows(a) + OkRows(b)
    decreases |b|
  {
    if b == [] {
      assert a + b == a;
    } else {
      OkRowsAdd(a, b[..|b| - 1]);
      assert (a + b)[..|a + b| - 1] == a + b[..|b| - 1];
    }
  }

  /** An attempt leaves one or two rows. Only the last can be an `ok` row or cost anything, and it is and does exactly
      when the tier served. */
  lemma AttemptRows(env: Env, tier: Tier)
    ensures var (t, rows) := AttemptFrom(env, tier, false);
            && 1 <= |rows| <= 2
            && rows[|rows| - 1] == Row(env, tier, if t.Served? then Cost(t.usage) else 0, rows[|rows| - 1].kind)
            && (rows[|rows| - 1].kind == OkRow <==> t.Served?)
            && (|rows| == 2 ==> rows[0] == Row(env, tier, 0, ErrorRow))
            && (t.Served? ==> Fine(t.usage) in {env.answer(tier, 0), env.answer(tier, 1)})
  {
    hide Classify, Cost;
    var (t1, r1) := AttemptFrom(env, tier, true);
    assert |r1| == 1;
  }

  lemma AttemptOkRows(env: Env, st: State, tier: Tier)
    ensures var (t, rows) := AttemptFrom(env, tier, false);
            OkRows(st.rows + rows) == OkRows(st.rows) + if t.Served? then 1 else 0
  {
    hide AttemptFrom, OkRows;
    var (t, rows) := AttemptFrom(env, tier, false);
    AttemptRows(env, tier);
    if |rows| == 2 {
      assert st.rows + rows == (st.rows + [rows[0]]) + [rows[1]];
      OkRowsAdd(st.rows + [rows[0]], [rows[1]]);
      OneRow(rows[1]);
    } else {
      assert rows == [rows[0]];
    }
    OkRowsAdd(st.rows, [rows[0]]);
    OneRow(rows[0]);
  }

  lemma OneRow(r: LedgerRow)
    ensures OkRows([r]) == if r.kind == OkRow then 1 else 0
  {
    assert [r][..0] == [];
  }

  /** Rows of the past are kept; at most two rows are added per tier; and there is one more `ok` row exactly when the
      call has an answer. */
  lemma {:induction false} CallRows(env: Env, st: State, chain: seq<Tier>, runRefused: bool)
    ensures var (after, r) := CallFrom(env, st, chain, runRefused);
            && st.rows <= after.rows && |after.rows| - |st.rows| <= 2 * |chain|
            && OkRows(after.rows) == OkRows(st.rows) + if r.Answered? || r.Replayed? then 1 else 0
    decreases |chain|
  {
    hide AttemptFrom, BudgetRefusal, IsOpen, OkRows;
    if chain != [] {
      var tier, rest := chain[0], chain[1..];
      if tier == T4 {
        OkRowsAdd(st.rows, [Row(env, T4, 0, if env.recorded then OkRow else ErrorRow)]);
        OneRow(Row(env, T4, 0, if env.recorded then OkRow else ErrorRow));
      } else if IsOpen(env, st.tripped, tier) {
        CallRows(env, st, rest, runRefused);
      } else if BudgetRefusal(env, st.rows, tier) != Allowed {
        var row := Row(env, tier, 0, RefusedRow);
        OkRowsAdd(st.rows, [row]);
        OneRow(row);
        CallRows(env, st.(rows := st.rows + [row]), rest, runRefused || BudgetRefusal(env, st.rows, tier) == OverRunBudget);
      } else {
        var (t, rows) := AttemptFrom(env, tier, false);
        AttemptRows(env, tier);
        AttemptOkRows(env, st, tier);
        if t.FailedOver? {
          CallRows(env, State(st.rows + rows, st.tripped[tier := env.clock(tier, true)]), rest, runRefused);
        }
      }
    }
  }

  /** Who decides a call: a tier that served (and whose breaker is then closed), a tier that failed for good, or the
      replay, which always ends the chain. Only tiers that failed over are tripped. */
  lemma {:induction false} CallDecides(env: Env, st: State, chain: seq<Tier>, runRefused: bool)
    ensures var (after, r) := CallFrom(env, st, chain, runRefused);
            && (r.Answered? ==> r.tier in chain && r.tier != T4 && AttemptFrom(env, r.tier, false).0 == Served(r.usage)
                                && r.tier !in after.tripped)
            && (r.CallFailed? ==> r.tier in chain && AttemptFrom(env, r.tier, false).0 == Stopped)
            && (T4 in chain ==> r.Answered? || r.CallFailed? || r.Replayed? || r.ReplayMiss?)
            && (r.Replayed? || r.ReplayMiss? ==> T4 in chain && env.recorded == r.Replayed?)
            && (forall t :: t in after.tripped && (t !in st.tripped || after.tripped[t] != st.tripped[t]) ==>
                  t in chain && AttemptFrom(env, t, false).0 == FailedOver)
    decreases |chain|
  {
    hide AttemptFrom, BudgetRefusal, IsOpen;
    if chain != [] {
      var tier, rest := chain[0], chain[1..];
      assert forall t :: t in chain <==> t == tier || t in rest;
      if tier != T4 {
        if IsOpen(env, st.tripped, tier) {
          CallDecides(env, st, rest, runRefused);
        } else if BudgetRefusal(env, st.rows, tier) != Allowed {
          CallDecides(env, st.(rows := st.rows + [Row(env, tier, 0, RefusedRow)]), rest,
                      runRefused || BudgetRefusal(env, st.rows, tier) == OverRunBudget);
        } else {
          var (t, rows) := AttemptFrom(env, tier, false);
          if t.FailedOver? {
            CallDecides(env, State(st.rows + rows, st.tripped[tier := env.clock(tier, true)]), rest, runRefused);
          }
        }
      }
    }
  }

  /** Providers keep to the assumption on tokens. */
  ghost predicate Honest(env: Env) {
    forall t, i :: env.answer(t, i).Fine? ==> Within(env.answer(t, i).usage, env.bytes, env.maxTokens)
  }

  lemma AttemptSpends(env: Env, rows: seq<LedgerRow>, tier: Tier, run: nat)
    ensures var (t, added) := AttemptFrom(env, tier, false);
            var cost := if t.Served? then Cost(t.usage) else 0;
            && RunSpend(rows + added, run) == RunSpend(rows, run) + (if env.run == Some(run) then cost else 0)
            && TierSpend(rows + added, T3) == TierSpend(rows, T3) + (if tier == T3 then cost else 0)
  {
    hide AttemptFrom, RunSpend, TierSpend, Cost;
    var (t, added) := AttemptFrom(env, tier, false);
    AttemptRows(env, tier);
    Spends(rows, added[0], run, T3);
    if |added| == 2 {
      assert rows + added == (rows + [added[0]]) + [added[1]];
      Spends(rows + [added[0]], added[1], run, T3);
    } else {
      assert added == [added[0]];
    }
  }

  lemma AttemptKeepsCaps(env: Env, rows: seq<LedgerRow>, tier: Tier, run: nat)
    requires Honest(env) && BudgetRefusal(env, rows, tier) == Allowed
    requires RunWithin(env.cfg, rows, run) && TierWithin(env.cfg, rows)
    ensures var more := rows + AttemptFrom(env, tier, false).1;
            RunWithin(env.cfg, more, run) && TierWithin(env.cfg, more)
  {
    hide AttemptFrom, RunSpend, TierSpend, Reserve, Cost, Within;
    AttemptRows(env, tier);
    AttemptSpends(env, rows, tier, run);
    ReserveIsLeastBound(env.bytes, env.maxTokens, Reserve(env.bytes, env.maxTokens));
  }

  /** A call keeps both caps, whatever tiers it goes through. */
  lemma {:induction false} CallKeepsCaps(env: Env, st: State, chain: seq<Tier>, runRefused: bool, run: nat)
    requires Honest(env) && RunWithin(env.cfg, st.rows, run) && TierWithin(env.cfg, st.rows)
    ensures RunWithin(env.cfg, CallFrom(env, st, chain, runRefused).0.rows, run)
    ensures TierWithin(env.cfg, CallFrom(env, st, chain, runRefused).0.rows)
    decreases |chain|
  {
    hide AttemptFrom, BudgetRefusal, IsOpen, Honest, RunSpend, TierSpend;
    if chain != [] {
      var tier, rest := chain[0], chain[1..];
      if tier == T4 {
        Spends(st.rows, Row(env, T4, 0, if env.recorded then OkRow else ErrorRow), run, T3);
      } else if IsOpen(env, st.tripped, tier) {
        CallKeepsCaps(env, st, rest, runRefused, run);
      } else if BudgetRefusal(env, st.rows, tier) != Allowed {
        var row := Row(env, tier, 0, RefusedRow);
        Spends(st.rows, row, run, T3);
        CallKeepsCaps(env, st.(rows := st.rows + [row]), rest, runRefused || BudgetRefusal(env, st.rows, tier) == OverRunBudget, run);
      } else {
        var (t, rows) := AttemptFrom(env, tier, false);
        AttemptKeepsCaps(env, st.rows, tier, run);
        if t.FailedOver? {
          CallKeepsCaps(env, State(st.rows + rows, st.tripped[tier := env.clock(tier, true)]), rest, runRefused, run);
        }
      }
    }
  }

  // --- who answers, in terms of what the world does -------------------------------------------------------------

  /** The provider is not there, cannot, or will not for want of credit: the next tier may. */
  predicate IsTransient(e: Exc) {
    match e
    case ConnectionError => true
    case StatusError(code, billingError, saysCreditBalance) =>
      code != 429 && (code >= 500 || code == 402 || billingError || (code == 400 && saysCreditBalance))
    case OtherException => false
  }

  predicate IsLimited(e: Exc) { e.StatusError? && e.code == 429 }

  /** Both a first and, after a 429, a second attempt are considered. */
  predicate Serves(env: Env, t: Tier, u: Usage) {
    || env.answer(t, 0) == Fine(u)
    || (env.answer(t, 0).Raised? && IsLimited(env.answer(t, 0).e) && env.answer(t, 1) == Fine(u))
  }

  predicate FailsOver(env: Env, t: Tier) {
    && env.answer(t, 0).Raised?
    && (|| IsTransient(env.answer(t, 0).e)
        || (IsLimited(env.answer(t, 0).e) && env.answer(t, 1).Raised? &&
            (IsTransient(env.answer(t, 1).e) || IsLimited(env.answer(t, 1).e))))
  }

  predicate FailsForGood(env: Env, t: Tier) {
    && env.answer(t, 0).Raised?
    && (|| (!IsTransient(env.answer(t, 0).e) && !IsLimited(env.answer(t, 0).e))
        || (IsLimited(env.answer(t, 0).e) && env.answer(t, 1).Raised? &&
            !IsTransient(env.answer(t, 1).e) && !IsLimited(env.answer(t, 1).e)))
  }

  /** What an attempt comes to, in terms of status codes. */
  lemma AttemptMeans(env: Env, t: Tier)
    ensures forall u :: AttemptFrom(env, t, false).0 == Served(u) <==> Serves(env, t, u)
    ensures AttemptFrom(env, t, false).0 == FailedOver <==> FailsOver(env, t)
    ensures AttemptFrom(env, t, false).0 == Stopped <==> FailsForGood(env, t)
  {
    hide Row, Cost;
    var tried := AttemptFrom(env, t, true).0;
    assert AttemptFrom(env, t, false).0 == tried || !(env.answer(t, 0).Raised? && IsLimited(env.answer(t, 0).e));
  }

  /** The tier was tripped less than the cooldown ago. */
  predicate Cooling(env: Env, st: State, t: Tier) {
    t in st.tripped && env.clock(t, false) < st.tripped[t] + env.cooldown
  }

  predicate OverRun(env: Env, st: State) {
    env.run.Some? && RunSpend(st.rows, env.run.value) + Reserve(env.bytes, env.maxTokens) > env.cfg.runBudget
  }

  predicate OverBedrock(env: Env, st: State, t: Tier) {
    t == T3 && TierSpend(st.rows, T3) + Reserve(env.bytes, env.maxTokens) > env.cfg.bedrockCap
  }

  /** The call gets past a tier: it is cooling, would exceed a budget, or fails over. */
  predicate MovesOn(env: Env, st: State, t: Tier) {
    t != T4 && (Cooling(env, st, t) || OverRun(env, st) || OverBedrock(env, st, t) || FailsOver(env, t))
  }

  /** What a tier that the call gets past leaves: nothing if it is cooling, a row if it is refused, and otherwise the rows of
      its attempt, and the tier tripped. */
  function Past(env: Env, st: State, t: Tier): State {
    if Cooling(env, st, t) then st
    else if OverRun(env, st) || OverBedrock(env, st, t) then st.(rows := st.rows + [LedgerRow(env.run, t, 0, RefusedRow, env.id)])
    else State(st.rows + AttemptFrom(env, t, false).1, st.tripped[t := env.clock(t, true)])
  }

  /** The state in which the call comes to the i-th tier, if it comes there. */
  function StateAt(env: Env, st: State, chain: seq<Tier>, i: nat): State
    requires i <= |chain|
  {
    if i == 0 then st else Past(env, StateAt(env, st, chain, i - 1), chain[i - 1])
  }

  /** The call gets past the first i tiers. */
  ghost predicate ComesTo(env: Env, st: State, chain: seq<Tier>, i: nat)
    requires i <= |chain|
  {
    forall k :: 0 <= k < i ==> MovesOn(env, StateAt(env, st, chain, k), chain[k])
  }

  ghost predicate RefusedBefore(env: Env, st: State, chain: seq<Tier>, i: nat)
    requires i <= |chain|
  {
    exists k :: 0 <= k < i && !Cooling(env, StateAt(env, st, chain, k), chain[k]) && OverRun(env, StateAt(env, st, chain, k))
  }

  lemma OneTier(env: Env, st: State, chain: seq<Tier>, runRefused: bool)
    requires chain != []
    ensures var t := chain[0];
            && (MovesOn(env, st, t) ==>
                  CallFrom(env, st, chain, runRefused) ==
                  CallFrom(env, Past(env, st, t), chain[1..], runRefused || (!Cooling(env, st, t) && OverRun(env, st))))
            && (t == T4 ==> CallFrom(env, st, chain, runRefused).1 == if env.recorded then Replayed else ReplayMiss)
            && (t != T4 && !MovesOn(env, st, t) ==>
                  && (FailsForGood(env, t) ==> CallFrom(env, st, chain, runRefused).1 == CallFailed(t))
                  && forall u :: Serves(env, t, u) ==> CallFrom(env, st, chain, runRefused).1 == Outcome.Answered(t, u))
  {
    hide AttemptFrom, RunSpend, TierSpend, Reserve, Serves, FailsOver, FailsForGood;
    AttemptMeans(env, chain[0]);
  }

  lemma {:induction false} TailStates(env: Env, st: State, chain: seq<Tier>, i: nat)
    requires 1 <= i <= |chain|
    ensures StateAt(env, st, chain, i) == StateAt(env, Past(env, st, chain[0]), chain[1..], i - 1)
    decreases i
  {
    hide Past;
    if i > 1 {
      TailStates(env, st, chain, i - 1);
    }
  }

  /** Down the chain: the call comes to tier i exactly by getting past the ones before it, and is decided there as soon as it
      cannot get past one. */
  lemma {:induction false} CallGetsTo(env: Env, st: State, chain: seq<Tier>, runRefused: bool, i: nat)
    requires i <= |chain| && ComesTo(env, st, chain, i)
    ensures CallFrom(env, st, chain, runRefused) ==
            CallFrom(env, StateAt(env, st, chain, i), chain[i..], runRefused || RefusedBefore(env, st, chain, i))
    decreases i
  {
    hide CallFrom, MovesOn, Past, Cooling, OverRun;
    if i == 0 {
      assert chain[0..] == chain;
    } else {
      assert MovesOn(env, StateAt(env, st, chain, 0), chain[0]);
      var next := Past(env, st, chain[0]);
      OneTier(env, st, chain, runRefused);
      forall k | 0 <= k < i ensures k > 0 ==> StateAt(env, next, chain[1..], k - 1) == StateAt(env, st, chain, k) {
        if k > 0 {
          TailStates(env, st, chain, k);
        }
      }
      TailStates(env, st, chain, i);
      assert forall k :: 0 <= k < i - 1 ==> chain[1..][k] == chain[k + 1];
      var first := !Cooling(env, st, chain[0]) && OverRun(env, st);
      CallGetsTo(env, next, chain[1..], runRefused || first, i - 1);
      RefusedSplits(env, st, chain, i);
      assert chain[1..][i - 1..] == chain[i..];
    }
  }

  lemma RefusedSplits(env: Env, st: State, chain: seq<Tier>, i: nat)
    requires 1 <= i <= |chain|
    ensures RefusedBefore(env, st, chain, i) <==>
            (!Cooling(env, st, chain[0]) && OverRun(env, st)) || RefusedBefore(env, Past(env, st, chain[0]), chain[1..], i - 1)
  {
    hide Past, Cooling, OverRun;
    forall k | 1 <= k < i ensures StateAt(env, Past(env, st, chain[0]), chain[1..], k - 1) == StateAt(env, st, chain, k) {
      TailStates(env, st, chain, k);
    }
    if RefusedBefore(env, st, chain, i) {
      var k :| 0 <= k < i && !Cooling(env, StateAt(env, st, chain, k), chain[k]) && OverRun(env, StateAt(env, st, chain, k));
      assert k > 0 ==> chain[1..][k - 1] == chain[k];
    }
    if RefusedBefore(env, Past(env, st, chain[0]), chain[1..], i - 1) {
      var k :| 0 <= k < i - 1 && !Cooling(env, StateAt(env, Past(env, st, chain[0]), chain[1..], k), chain[1..][k]) &&
               OverRun(env, StateAt(env, Past(env, st, chain[0]), chain[1..], k));
      assert StateAt(env, st, chain, k + 1) == StateAt(env, Past(env, st, chain[0]), chain[1..], k) && chain[k + 1] == chain[1..][k];
    }
    assert StateAt(env, st, chain, 0) == st;
  }

  /** What a call comes to, for every answer the tiers may give: the first tier that the call cannot get past decides. If it
      serves, the call is answered by it; if it raises anything but a connection error, a 429, a 5xx, a 402, a billing error or
      a 400 about the credit balance, the call fails there; a replay tier replays or misses. If the call gets past all of
      them, the budget was exceeded when the run's own budget refused a tier, and otherwise no tier was available. */
  lemma CallMeans(env: Env, st: State, chain: seq<Tier>, i: nat)
    requires i <= |chain| && ComesTo(env, st, chain, i)
    ensures var r := CallFrom(env, st, chain, false).1;
            && (i == |chain| ==> r == if RefusedBefore(env, st, chain, i) then BudgetExceeded else NoTierAvailable)
            && (i < |chain| && chain[i] == T4 ==> r == if env.recorded then Replayed else ReplayMiss)
            && (i < |chain| && chain[i] != T4 && !MovesOn(env, StateAt(env, st, chain, i), chain[i]) ==>
                  && (FailsForGood(env, chain[i]) ==> r == CallFailed(chain[i]))
                  && forall u :: Serves(env, chain[i], u) ==> r == Outcome.Answered(chain[i], u))
  {
    hide MovesOn, Serves, FailsForGood, StateAt, RefusedBefore;
    CallGetsTo(env, st, chain, false, i);
    if i < |chain| {
      hide CallFrom;
      OneTier(env, StateAt(env, st, chain, i), chain[i..], RefusedBefore(env, st, chain, i));
    } else {
      assert chain[i..] == [];
    }
  }

  /** A call fails for good only where a tier raised what no other tier could mend, at its first attempt or after a 429 at its
      second. */
  lemma CallFailsOnly(env: Env, st: State, chain: seq<Tier>, runRefused: bool)
    requires CallFrom(env, st, chain, runRefused).1.CallFailed?
    ensures var t := CallFrom(env, st, chain, runRefused).1.tier;
            && t in chain
            && exists n :: n in {0, 1} && env.answer(t, n).Raised? &&
                 (n == 1 ==> env.answer(t, 0).Raised? && env.answer(t, 0).e.StatusError? && env.answer(t, 0).e.code == 429) &&
                 match env.answer(t, n).e
                 case ConnectionError => false
                 case StatusError(code, billingError, saysCreditBalance) =>
                   code < 500 && code != 429 && code != 402 && !billingError && (code == 400 ==> !saysCreditBalance)
                 case OtherException => true
  {
    hide CallFrom, AttemptFrom;
    CallDecides(env, st, chain, runRefused);
    var t := CallFrom(env, st, chain, runRefused).1.tier;
    AttemptMeans(env, t);
    if !IsTransient(env.answer(t, 0).e) && !IsLimited(env.answer(t, 0).e) {
      assert 0 in {0, 1};
    } else {
      assert 1 in {0, 1};
    }
  }
}
