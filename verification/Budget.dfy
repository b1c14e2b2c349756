/** The spend cap of the LLM ledger: concurrent model calls that reserve, call and record under ordered advisory locks. */
module Budget {
  import opened Models

  // --- prices ---------------------------------------------------------------------------------------------------

  /** Tokens as the provider reports them. */
  datatype Usage = Usage(input: nat, output: nat, cacheWrite: nat, cacheRead: nat)

  /** The exact cost in twentieths of a microdollar: 1.00, 5.00, 1.25 and 0.10 dollars per million tokens. */
  function Exact(u: Usage): nat { 20 * u.input + 100 * u.output + 25 * u.cacheWrite + 2 * u.cacheRead }

  /** Microdollars, rounded up. */
  function Cost(u: Usage): (c: nat)
    ensures 20 * c >= Exact(u) && forall d: nat :: 20 * d >= Exact(u) ==> c <= d
  {
    (Exact(u) + 19) / 20
  }

  /** Dollars for so many million tokens of each kind, exactly. */
  lemma PricesAre(input: nat, output: nat, cacheWrite: nat, cacheRead: nat)
    ensures Cost(Usage(input * 1000000, output * 1000000, cacheWrite * 1000000, cacheRead * 1000000)) ==
            input * 1000000 + output * 5000000 + cacheWrite * 1250000 + cacheRead * 100000
  {
  }

  /** The whole request priced as a cache write, plus the largest output. */
  function Reserve(bytes: nat, maxTokens: nat): nat { Cost(Usage(0, maxTokens, bytes + 1024, 0)) }

  /** The assumption on providers: a token is at least a byte, and the output limit is kept. */
  predicate Within(u: Usage, bytes: nat, maxTokens: nat) {
    u.input + u.cacheWrite + u.cacheRead <= bytes + 1024 && u.output <= maxTokens
  }

  /** However the prompt splits into plain, written and read tokens, the rounded cost stays within the reserve; and the
      reserve is the least amount of which that is true. */
  lemma ReserveIsLeastBound(bytes: nat, maxTokens: nat, r: nat)
    ensures (forall u :: Within(u, bytes, maxTokens) ==> Cost(u) <= r) <==> Reserve(bytes, maxTokens) <= r
  {
    var worst := Usage(0, maxTokens, bytes + 1024, 0);
    assert Within(worst, bytes, maxTokens);
    forall u | Within(u, bytes, maxTokens) ensures Cost(u) <= Reserve(bytes, maxTokens) {
      assert Exact(u) <= Exact(worst);
    }
  }

  // --- the ledger -----------------------------------------------------------------------------------------------

  datatype Tier = T1 | T2 | T3 | T4

  datatype RowKind = OkRow | FailoverRow | ErrorRow | RefusedRow

  /** An llm_calls row; `call` is history. */
  datatype LedgerRow = LedgerRow(run: Option<nat>, tier: Tier, cost: nat, kind: RowKind, call: nat)

  function RunSpend(rows: seq<LedgerRow>, run: nat): nat {
    if rows == [] then 0
    else
      var last := rows[|rows| - 1];
      RunSpend(rows[..|rows| - 1], run) + if last.run == Some(run) then last.cost else 0
  }

  function TierSpend(rows: seq<LedgerRow>, tier: Tier): nat {
    if rows == [] then 0
    else
      var last := rows[|rows| - 1];
      TierSpend(rows[..|rows| - 1], tier) + if last.tier == tier then last.cost else 0
  }

  lemma Spends(rows: seq<LedgerRow>, r: LedgerRow, run: nat, tier: Tier)
    ensures RunSpend(rows + [r], run) == RunSpend(rows, run) + if r.run == Some(run) then r.cost else 0
    ensures TierSpend(rows + [r], tier) == TierSpend(rows, tier) + if r.tier == tier then r.cost else 0
  {
    assert (rows + [r])[..|rows|] == rows;
  }

  const BEDROCK_LOCK: nat := 0

  /** The advisory lock of a run: a positive 31-bit number, so never the Bedrock key, and shared by some runs. */
  function RunLock(run: nat): (k: nat)
    ensures k != BEDROCK_LOCK
  {
    run % 0x7FFF_FFFF + 1
  }

  /** The locks a call takes for a tier, in this order. */
  function Keys(run: Option<nat>, tier: Tier): seq<nat> {
    (if tier == T3 then [BEDROCK_LOCK] else []) + if run.Some? then [RunLock(run.value)] else []
  }

  // --- concurrent calls -----------------------------------------------------------------------------------------

  datatype Pc =
    | Choosing
    | Locking(tier: Tier)                  // waiting for the first key of `Keys` it does not hold
    | Guarded(tier: Tier)                  // all locks held, nothing checked
    | RunChecked(tier: Tier)               // the run's spend was read and leaves room
    | Calling(tier: Tier, retried: bool)   // both checks passed
    | Leaving(answered: bool)              // out of the guard's body, locks still held
    | Finished

  datatype Caller = Caller(run: Option<nat>, bytes: nat, maxTokens: nat, chain: seq<Tier>, held: nat, pc: Pc) {
    function Reserved(): nat { Reserve(bytes, maxTokens) }
  }

  datatype Config = Config(runBudget: int, bedrockCap: int, maxTokensCap: nat)

  datatype World = World(rows: seq<LedgerRow>, locks: map<nat, nat>, callers: map<nat, Caller>, next: nat)

  datatype Reply = Answered(usage: Usage) | RateLimited | FailsOver | Fatal

  datatype Step =
    | Start(run: Option<nat>, bytes: nat, maxTokens: nat, chain: seq<Tier>)
    | Skip(c: nat)                         // the tier's breaker is open
    | Choose(c: nat)
    | Replay(c: nat, found: bool)
    | Acquire(c: nat)
    | CheckRun(c: nat)
    | CheckTier(c: nat)
    | Respond(c: nat, reply: Reply)
    | Unlock(c: nat)
    | Crash(c: nat)                        // the session ends and its locks with it

  function Todo(a: Caller): seq<nat>
    requires a.pc.Locking?
  {
    var keys := Keys(a.run, a.pc.tier);
    if a.held <= |keys| then keys[a.held..] else []
  }

  function Put(w: World, c: nat, a: Caller): World { w.(callers := w.callers[c := a]) }

  function Log(w: World, c: nat, a: Caller, tier: Tier, cost: nat, kind: RowKind): World {
    w.(rows := w.rows + [LedgerRow(a.run, tier, cost, kind, c)])
  }

  function Freed(locks: map<nat, nat>, c: nat): map<nat, nat> {
    map k | k in locks && locks[k] != c :: locks[k]
  }

  function Do(cfg: Config, w: World, s: Step): World {
    match s
    case Start(run, bytes, maxTokens, chain) =>
      if maxTokens > cfg.maxTokensCap then w
      else w.(callers := w.callers[w.next := Caller(run, bytes, maxTokens, chain, 0, Choosing)], next := w.next + 1)
    case Skip(c) =>
      if c !in w.callers || w.callers[c].pc != Choosing || w.callers[c].chain == [] then w
      else Put(w, c, w.callers[c].(chain := w.callers[c].chain[1..]))
    case Choose(c) =>
      if c !in w.callers || w.callers[c].pc != Choosing then w
      else if w.callers[c].chain == [] then Put(w, c, w.callers[c].(pc := Finished))
      else if w.callers[c].chain[0] == T4 then w
      else Put(w, c, w.callers[c].(chain := w.callers[c].chain[1..], pc := Locking(w.callers[c].chain[0]), held := 0))
    case Replay(c, found) =>
      if c !in w.callers || w.callers[c].pc != Choosing || w.callers[c].chain == [] || w.callers[c].chain[0] != T4 then w
      else Put(Log(w, c, w.callers[c], T4, 0, if found then OkRow else ErrorRow), c, w.callers[c].(pc := Finished))
    case Acquire(c) =>
      if c !in w.callers || !w.callers[c].pc.Locking? then w
      else
        var a := w.callers[c];
        var todo := Todo(a);
        if todo == [] then Put(w, c, a.(pc := Guarded(a.pc.tier)))
        else if todo[0] in w.locks then w
        else Put(w, c, a.(held := a.held + 1)).(locks := w.locks[todo[0] := c])
    case CheckRun(c) =>
      if c !in w.callers || !w.callers[c].pc.Guarded? then w
      else
        var a := w.callers[c];
        if a.run.Some? && RunSpend(w.rows, a.run.value) + a.Reserved() > cfg.runBudget
        then Put(Log(w, c, a, a.pc.tier, 0, RefusedRow), c, a.(pc := Leaving(false)))
        else Put(w, c, a.(pc := RunChecked(a.pc.tier)))
    case CheckTier(c) =>
      if c !in w.callers || !w.callers[c].pc.RunChecked? then w
      else
        var a := w.callers[c];
        if a.pc.tier == T3 && TierSpend(w.rows, T3) + a.Reserved() > cfg.bedrockCap
        then Put(Log(w, c, a, T3, 0, RefusedRow), c, a.(pc := Leaving(false)))
        else Put(w, c, a.(pc := Calling(a.pc.tier, false)))
    case Respond(c, reply) =>
      if c !in w.callers || !w.callers[c].pc.Calling? then w
      else
        var a := w.callers[c];
        var tier := a.pc.tier;
        (match reply
        case Answered(u) =>
          if !Within(u, a.bytes, a.maxTokens) then w
          else Put(Log(w, c, a, tier, Cost(u), OkRow), c, a.(pc := Leaving(true)))
        case RateLimited =>
          if a.pc.retried then Put(Log(w, c, a, tier, 0, FailoverRow), c, a.(pc := Leaving(false)))
          else Put(Log(w, c, a, tier, 0, ErrorRow), c, a.(pc := Calling(tier, true)))
        case FailsOver => Put(Log(w, c, a, tier, 0, FailoverRow), c, a.(pc := Leaving(false)))
        case Fatal => Put(Log(w, c, a, tier, 0, ErrorRow), c, a.(pc := Leaving(false), chain := [])))
    case Unlock(c) =>
      if c !in w.callers || !w.callers[c].pc.Leaving? then w
      else Put(w, c, w.callers[c].(held := 0, pc := if w.callers[c].pc.answered then Finished else Choosing)).(
             locks := Freed(w.locks, c))
    case Crash(c) => w.(callers := w.callers - {c}, locks := Freed(w.locks, c))
  }

  function Run(cfg: Config, w: World, steps: seq<Step>): World
    decreases |steps|
  {
    if steps == [] then w else Run(cfg, Do(cfg, w, steps[0]), steps[1..])
  }

  const EMPTY: World := World([], map[], map[], 0)

  // --- what holds in every reachable world ----------------------------------------------------------------------

  function Guards(a: Caller): set<nat> {
    match a.pc
    case Locking(t) => var ks := Keys(a.run, t); set i | 0 <= i < a.held && i < |ks| :: ks[i]
    case Guarded(t) => set k | k in Keys(a.run, t)
    case RunChecked(t) => set k | k in Keys(a.run, t)
    case Calling(t, _) => set k | k in Keys(a.run, t)
    case _ => {}
  }

  /** A caller in the guard owns its locks, and what it has checked still holds. */
  ghost predicate CallerOk(cfg: Config, w: World, c: nat) {
    c in w.callers ==>
      var a := w.callers[c];
      && (forall k :: k in Guards(a) ==> k in w.locks && w.locks[k] == c)
      && (a.pc.Locking? ==> a.held <= |Keys(a.run, a.pc.tier)|)
      && (a.pc.RunChecked? || a.pc.Calling? ==>
            a.run.Some? ==> RunSpend(w.rows, a.run.value) + a.Reserved() <= cfg.runBudget)
      && (a.pc.Calling? && a.pc.tier == T3 ==> TierSpend(w.rows, T3) + a.Reserved() <= cfg.bedrockCap)
  }

  /** A lock is held by a live caller that has not finished, and one that only waits holds no run lock. */
  ghost predicate LockOk(w: World, k: nat) {
    k in w.locks ==>
      var c := w.locks[k];
      && c in w.callers
      && !w.callers[c].pc.Finished? && !w.callers[c].pc.Choosing?
      && (w.callers[c].pc.Locking? ==> k in Guards(w.callers[c]))
  }

  ghost predicate RunWithin(cfg: Config, rows: seq<LedgerRow>, run: nat) {
    RunSpend(rows, run) == 0 || RunSpend(rows, run) <= cfg.runBudget
  }

  ghost predicate TierWithin(cfg: Config, rows: seq<LedgerRow>) {
    TierSpend(rows, T3) == 0 || TierSpend(rows, T3) <= cfg.bedrockCap
  }

  ghost predicate Inv(cfg: Config, w: World) {
    && (forall c :: CallerOk(cfg, w, c))
    && (forall k :: LockOk(w, k))
    && (forall c :: c in w.callers ==> c < w.next)
    && (forall run :: RunWithin(cfg, w.rows, run))
    && TierWithin(cfg, w.rows)
  }

  // --- every step keeps it --------------------------------------------------------------------------------------

  /** One caller moves on; the rows and locks stay. */
  lemma PutKeeps(cfg: Config, w: World, c: nat, a: Caller)
    requires Inv(cfg, w) && c in w.callers
    requires CallerOk(cfg, Put(w, c, a), c)
    requires forall k :: k in w.locks && w.locks[k] == c ==> LockOk(Put(w, c, a), k)
    ensures Inv(cfg, Put(w, c, a))
  {
    hide RunWithin, TierWithin;
    var v := Put(w, c, a);
    forall d ensures CallerOk(cfg, v, d) { assert CallerOk(cfg, w, d); }
    forall k ensures LockOk(v, k) { assert LockOk(w, k); }
  }

  /** A row without cost changes no sum. */
  lemma FreeRowKeeps(cfg: Config, w: World, c: nat, a: Caller, tier: Tier, kind: RowKind)
    requires Inv(cfg, w)
    ensures Inv(cfg, Log(w, c, a, tier, 0, kind))
  {
    var r := LedgerRow(a.run, tier, 0, kind, c);
    var v := Log(w, c, a, tier, 0, kind);
    Spends(w.rows, r, 0, T3);
    forall run ensures RunSpend(v.rows, run) == RunSpend(w.rows, run) && RunWithin(cfg, v.rows, run) {
      Spends(w.rows, r, run, T3);
      assert RunWithin(cfg, w.rows, run);
    }
    forall d ensures CallerOk(cfg, v, d) { assert CallerOk(cfg, w, d); }
    forall k ensures LockOk(v, k) { assert LockOk(w, k); }
  }

  lemma OwnsLocks(cfg: Config, w: World, c: nat)
    requires Inv(cfg, w) && c in w.callers && (w.callers[c].pc.RunChecked? || w.callers[c].pc.Calling?)
    ensures var a := w.callers[c];
            && (a.run.Some? ==> RunLock(a.run.value) in w.locks && w.locks[RunLock(a.run.value)] == c)
            && (a.pc.tier == T3 ==> BEDROCK_LOCK in w.locks && w.locks[BEDROCK_LOCK] == c)
  {
    var a := w.callers[c];
    assert CallerOk(cfg, w, c);
    assert a.run.Some? ==> RunLock(a.run.value) in Guards(a);
    assert a.pc.tier == T3 ==> BEDROCK_LOCK in Guards(a);
  }

  /** Two callers inside the guard never share a run, nor both use Bedrock. */
  lemma GuardsExclude(cfg: Config, w: World, c: nat, d: nat)
    requires Inv(cfg, w) && c in w.callers && d in w.callers && c != d
    requires (w.callers[c].pc.RunChecked? || w.callers[c].pc.Calling?) && (w.callers[d].pc.RunChecked? || w.callers[d].pc.Calling?)
    ensures w.callers[c].run.Some? ==> w.callers[c].run != w.callers[d].run
    ensures !(w.callers[c].pc.tier == T3 && w.callers[d].pc.tier == T3)
  {
    hide Inv, RunLock;
    OwnsLocks(cfg, w, c);
    OwnsLocks(cfg, w, d);
  }

  /** An answer is charged only against room that was reserved for it, and against nobody else's. */
  lemma AnswerKeeps(cfg: Config, w: World, c: nat, u: Usage)
    requires Inv(cfg, w) && c in w.callers && w.callers[c].pc.Calling?
    requires Within(u, w.callers[c].bytes, w.callers[c].maxTokens)
    ensures var a := w.callers[c];
            Inv(cfg, Put(Log(w, c, a, a.pc.tier, Cost(u), OkRow), c, a.(pc := Leaving(true))))
  {
    hide Reserve, Cost, Keys;
    var a := w.callers[c];
    var r := LedgerRow(a.run, a.pc.tier, Cost(u), OkRow, c);
    var v := Put(Log(w, c, a, a.pc.tier, Cost(u), OkRow), c, a.(pc := Leaving(true)));
    ReserveIsLeastBound(a.bytes, a.maxTokens, a.Reserved());
    assert CallerOk(cfg, w, c);
    Spends(w.rows, r, 0, T3);
    forall run ensures RunWithin(cfg, v.rows, run) {
      Spends(w.rows, r, run, T3);
      assert RunWithin(cfg, w.rows, run);
    }
    forall d ensures CallerOk(cfg, v, d) {
      if d in w.callers && d != c {
        assert CallerOk(cfg, w, d);
        var b := w.callers[d];
        if b.pc.RunChecked? || b.pc.Calling? {
          GuardsExclude(cfg, w, c, d);
          if b.run.Some? {
            Spends(w.rows, r, b.run.value, T3);
          }
        }
      }
    }
    forall k ensures LockOk(v, k) { assert LockOk(w, k); }
  }

  lemma AcquireKeeps(cfg: Config, w: World, c: nat)
    requires Inv(cfg, w)
    ensures Inv(cfg, Do(cfg, w, Acquire(c)))
  {
    if c in w.callers && w.callers[c].pc.Locking? {
      if Todo(w.callers[c]) == [] {
        EntersGuard(cfg, w, c);
      } else if Todo(w.callers[c])[0] !in w.locks {
        TakesLock(cfg, w, c);
      }
    }
  }

  lemma EntersGuard(cfg: Config, w: World, c: nat)
    requires Inv(cfg, w) && c in w.callers && w.callers[c].pc.Locking? && Todo(w.callers[c]) == []
    ensures Inv(cfg, Put(w, c, w.callers[c].(pc := Guarded(w.callers[c].pc.tier))))
  {
    hide RunWithin, TierWithin, RunSpend, TierSpend, Reserve, RunLock;
    var a := w.callers[c];
    var x := a.(pc := Guarded(a.pc.tier));
    assert CallerOk(cfg, w, c);
    var keys := Keys(a.run, a.pc.tier);
    assert forall k :: k in keys ==> exists i :: 0 <= i < |keys| && keys[i] == k;
    assert Guards(x) == Guards(a);
    forall k | k in w.locks && w.locks[k] == c ensures LockOk(Put(w, c, x), k) { assert LockOk(w, k); }
    PutKeeps(cfg, w, c, x);
  }

  lemma TakesLock(cfg: Config, w: World, c: nat)
    requires Inv(cfg, w) && c in w.callers && w.callers[c].pc.Locking?
    requires Todo(w.callers[c]) != [] && Todo(w.callers[c])[0] !in w.locks
    ensures Inv(cfg, Do(cfg, w, Acquire(c)))
  {
    hide RunWithin, TierWithin, RunSpend, TierSpend, Reserve, Keys, RunLock;
    var v := Do(cfg, w, Acquire(c));
    var a := w.callers[c];
    assert CallerOk(cfg, w, c);
    var key := Todo(a)[0];
    assert key == Keys(a.run, a.pc.tier)[a.held];
    assert Guards(v.callers[c]) == Guards(a) + {key};
    forall d ensures CallerOk(cfg, v, d) { assert CallerOk(cfg, w, d); }
    forall k ensures LockOk(v, k) { assert LockOk(w, k); }
  }

  /** A caller that leaves takes only its own locks with it. */
  lemma LeaveKeeps(cfg: Config, w: World, c: nat, v: World)
    requires Inv(cfg, w)
    requires v.locks == Freed(w.locks, c) && v.rows == w.rows && v.next == w.next
    requires v.callers == w.callers - {c} || (c in w.callers && exists a :: v.callers == w.callers[c := a] && (a.pc.Finished? || a.pc.Choosing?))
    ensures Inv(cfg, v)
  {
    hide RunWithin, TierWithin, RunSpend, TierSpend, Reserve, Keys;
    forall d ensures CallerOk(cfg, v, d) { assert CallerOk(cfg, w, d); }
    forall k ensures LockOk(v, k) { assert LockOk(w, k); }
  }

  lemma ChecksKeep(cfg: Config, w: World, c: nat, s: Step)
    requires Inv(cfg, w) && (s == CheckRun(c) || s == CheckTier(c))
    ensures Inv(cfg, Do(cfg, w, s))
  {
    hide RunWithin, TierWithin, RunSpend, TierSpend, Reserve, Keys, RunLock, Inv, Log;
    var v := Do(cfg, w, s);
    if v != w {
      var a := w.callers[c];
      var x := v.callers[c];
      CallerHeld(cfg, w, c);
      if x.pc.Leaving? {
        FreeRowKeeps(cfg, w, c, a, a.pc.tier, RefusedRow);
        LogFrame(w, c, a, a.pc.tier, RefusedRow);
        CallerHeld(cfg, Log(w, c, a, a.pc.tier, 0, RefusedRow), c);
        StaysHeld(cfg, Log(w, c, a, a.pc.tier, 0, RefusedRow), c, x);
      } else {
        StaysHeld(cfg, w, c, x);
      }
    }
  }

  lemma CallerHeld(cfg: Config, w: World, c: nat)
    requires Inv(cfg, w)
    ensures CallerOk(cfg, w, c)
  {
  }

  /** A caller inside the guard that goes on inside it. */
  lemma StaysHeld(cfg: Config, w: World, c: nat, x: Caller)
    requires Inv(cfg, w) && c in w.callers && CallerOk(cfg, Put(w, c, x), c)
    requires x.pc.RunChecked? || x.pc.Calling? || x.pc.Leaving?
    ensures Inv(cfg, Put(w, c, x))
  {
    hide CallerOk, RunWithin, TierWithin;
    forall k | k in w.locks && w.locks[k] == c ensures LockOk(Put(w, c, x), k) { assert LockOk(w, k); }
    PutKeeps(cfg, w, c, x);
  }

  lemma RespondKeeps(cfg: Config, w: World, c: nat, reply: Reply)
    requires Inv(cfg, w)
    ensures Inv(cfg, Do(cfg, w, Respond(c, reply)))
  {
    hide RunWithin, TierWithin, RunSpend, TierSpend, Reserve, Keys, RunLock, Inv, Log, Cost;
    var v := Do(cfg, w, Respond(c, reply));
    if v != w {
      var a := w.callers[c];
      CallerHeld(cfg, w, c);
      if reply.Answered? {
        AnswerKeeps(cfg, w, c, reply.usage);
      } else {
        var kind := if reply.FailsOver? || (reply.RateLimited? && a.pc.retried) then FailoverRow else ErrorRow;
        var u := Log(w, c, a, a.pc.tier, 0, kind);
        FreeRowKeeps(cfg, w, c, a, a.pc.tier, kind);
        CallerHeld(cfg, u, c);
        assert u.callers == w.callers by { LogFrame(w, c, a, a.pc.tier, kind); }
        StaysHeld(cfg, u, c, v.callers[c]);
      }
    }
  }

  lemma LogFrame(w: World, c: nat, a: Caller, tier: Tier, kind: RowKind)
    ensures Log(w, c, a, tier, 0, kind).callers == w.callers
  {
  }

  lemma StepKeeps(cfg: Config, w: World, s: Step)
    requires Inv(cfg, w)
    ensures Inv(cfg, Do(cfg, w, s))
  {
    match s {
      case Acquire(c) => AcquireKeeps(cfg, w, c);
      case CheckRun(c) => ChecksKeep(cfg, w, c, s);
      case CheckTier(c) => ChecksKeep(cfg, w, c, s);
      case Respond(c, reply) => RespondKeeps(cfg, w, c, reply);
      case Unlock(c) =>
        if Do(cfg, w, s) != w {
          LeaveKeeps(cfg, w, c, Do(cfg, w, s));
        }
      case Crash(c) => LeaveKeeps(cfg, w, c, Do(cfg, w, s));
      case _ => OutsideKeeps(cfg, w, s);
    }
  }

  /** Steps of a caller outside the guard. */
  lemma OutsideKeeps(cfg: Config, w: World, s: Step)
    requires Inv(cfg, w) && (s.Start? || s.Skip? || s.Choose? || s.Replay?)
    ensures Inv(cfg, Do(cfg, w, s))
  {
    hide RunWithin, TierWithin, RunSpend, TierSpend, Reserve, Keys, RunLock, Log;
    var v := Do(cfg, w, s);
    if v != w {
      match s {
        case Start(_, _, _, _) =>
          forall d ensures CallerOk(cfg, v, d) { assert CallerOk(cfg, w, d); }
          forall k ensures LockOk(v, k) { assert LockOk(w, k); }
        case Replay(c, found) =>
          var kind := if found then OkRow else ErrorRow;
          FreeRowKeeps(cfg, w, c, w.callers[c], T4, kind);
          LogFrame(w, c, w.callers[c], T4, kind);
          OutsidePut(cfg, Log(w, c, w.callers[c], T4, 0, kind), c, v.callers[c]);
        case Skip(c) => OutsidePut(cfg, w, c, v.callers[c]);
        case Choose(c) => OutsidePut(cfg, w, c, v.callers[c]);
        case _ =>
      }
    }
  }

  lemma OutsidePut(cfg: Config, w: World, c: nat, x: Caller)
    requires Inv(cfg, w) && c in w.callers && w.callers[c].pc.Choosing?
    requires x.pc.Choosing? || x.pc.Finished? || (x.pc.Locking? && x.held == 0)
    ensures Inv(cfg, Put(w, c, x))
  {
    forall k ensures !(k in w.locks && w.locks[k] == c) { assert LockOk(w, k); }
    PutKeeps(cfg, w, c, x);
  }

  lemma {:induction false} RunKeeps(cfg: Config, w: World, steps: seq<Step>)
    requires Inv(cfg, w)
    ensures Inv(cfg, Run(cfg, w, steps))
    decreases |steps|
  {
    hide Inv, Do;
    if steps != [] {
      StepKeeps(cfg, w, steps[0]);
      RunKeeps(cfg, Do(cfg, w, steps[0]), steps[1..]);
    }
  }

  lemma Reached(cfg: Config, steps: seq<Step>)
    ensures Inv(cfg, Run(cfg, EMPTY, steps))
  {
    RunKeeps(cfg, EMPTY, steps);
  }

  /** Over every interleaving of calls and crashes, recorded spend of a run never passes its budget and recorded
      Bedrock spend never passes the cap (an amount below zero allows no spend at all). */
  lemma SpendIsCapped(cfg: Config, steps: seq<Step>, run: nat)
    ensures var rows := Run(cfg, EMPTY, steps).rows;
            && (RunSpend(rows, run) == 0 || RunSpend(rows, run) <= cfg.runBudget)
            && (TierSpend(rows, T3) == 0 || TierSpend(rows, T3) <= cfg.bedrockCap)
  {
    Reached(cfg, steps);
    assert RunWithin(cfg, Run(cfg, EMPTY, steps).rows, run);
  }

  // --- no deadlock ----------------------------------------------------------------------------------------------

  /** `c` waits for a lock that `d` holds. */
  ghost predicate WaitsFor(w: World, c: nat, d: nat) {
    && c in w.callers && w.callers[c].pc.Locking?
    && Todo(w.callers[c]) != [] && Todo(w.callers[c])[0] in w.locks && w.locks[Todo(w.callers[c])[0]] == d
  }

  /** Whoever holds a run lock waits for nothing: the Bedrock key comes first and is never a run key. */
  lemma RunLockIsLast(cfg: Config, w: World, k: nat)
    requires Inv(cfg, w) && k in w.locks && k != BEDROCK_LOCK
    ensures w.locks[k] in w.callers && CanStep(cfg, w, w.locks[k])
    ensures forall d :: !WaitsFor(w, w.locks[k], d)
  {
    hide RunWithin, TierWithin, RunSpend, TierSpend, Reserve, RunLock;
    var c := w.locks[k];
    assert LockOk(w, k) && CallerOk(cfg, w, c);
    assert w.callers[c].pc.Locking? ==> Todo(w.callers[c]) == [];
    InGuardSteps(cfg, w, c);
  }

  /** The calls that wait for a run lock wait for one that can go on. */
  lemma WaitingForRun(cfg: Config, w: World, c: nat, d: nat)
    requires Inv(cfg, w) && WaitsFor(w, c, d) && Todo(w.callers[c])[0] != BEDROCK_LOCK
    ensures d in w.callers && CanStep(cfg, w, d) && forall e :: !WaitsFor(w, d, e)
  {
    RunLockIsLast(cfg, w, Todo(w.callers[c])[0]);
  }

  lemma WaitingForBedrock(cfg: Config, w: World, c: nat, d: nat, e: nat)
    requires Inv(cfg, w) && WaitsFor(w, c, d) && Todo(w.callers[c])[0] == BEDROCK_LOCK && WaitsFor(w, d, e)
    ensures Todo(w.callers[d])[0] != BEDROCK_LOCK
  {
    assert LockOk(w, BEDROCK_LOCK);
  }

  ghost predicate Free(w: World, c: nat) { forall d :: !WaitsFor(w, c, d) }

  /** Following what each call waits for ends, after at most two steps, at one that waits for nothing and can go on. */
  lemma ChainEnds(cfg: Config, w: World, c: nat) returns (d: nat)
    requires Inv(cfg, w) && c in w.callers && !Free(w, c)
    ensures d in w.callers && Free(w, d)
    ensures CanStep(cfg, w, d)
    ensures WaitsFor(w, c, d) || exists e :: WaitsFor(w, c, e) && WaitsFor(w, e, d)
  {
    hide Todo, Inv, WaitsFor, CanStep;
    d :| WaitsFor(w, c, d);
    assert Todo(w.callers[c]) != [] by { WaiterLocks(w, c, d); }
    HolderLives(cfg, w, c, d);
    if Todo(w.callers[c])[0] != BEDROCK_LOCK {
      WaitingForRun(cfg, w, c, d);
    } else if e :| WaitsFor(w, d, e) {
      WaiterLocks(w, d, e);
      WaitingForBedrock(cfg, w, c, d, e);
      WaitingForRun(cfg, w, d, e);
      d := e;
    }
  }

  lemma WaiterLocks(w: World, c: nat, d: nat)
    requires WaitsFor(w, c, d)
    ensures c in w.callers && w.callers[c].pc.Locking? && Todo(w.callers[c]) != []
  {
  }

  lemma HolderLives(cfg: Config, w: World, c: nat, d: nat)
    requires Inv(cfg, w) && WaitsFor(w, c, d)
    ensures d in w.callers && (Free(w, d) ==> CanStep(cfg, w, d))
  {
    hide RunWithin, TierWithin, RunSpend, TierSpend, Reserve, Keys, RunLock;
    assert LockOk(w, Todo(w.callers[c])[0]);
    if Free(w, d) {
      FreeSteps(cfg, w, d);
    }
  }

  predicate Moves(cfg: Config, w: World, s: Step) { Do(cfg, w, s) != w }

  /** The call has a step of its own to take. */
  ghost predicate CanStep(cfg: Config, w: World, c: nat) {
    || Moves(cfg, w, Choose(c)) || Moves(cfg, w, Replay(c, true)) || Moves(cfg, w, Acquire(c))
    || Moves(cfg, w, CheckRun(c)) || Moves(cfg, w, CheckTier(c)) || Moves(cfg, w, Respond(c, FailsOver))
    || Moves(cfg, w, Unlock(c))
  }

  lemma PutMoves(w: World, v: World, c: nat)
    requires c in w.callers && c in v.callers && v.callers[c].pc != w.callers[c].pc
    ensures v != w
  {
  }

  lemma InGuardSteps(cfg: Config, w: World, c: nat)
    requires c in w.callers && !w.callers[c].pc.Finished? && !w.callers[c].pc.Choosing?
    requires w.callers[c].pc.Locking? ==> Todo(w.callers[c]) == []
    ensures CanStep(cfg, w, c)
  {
    hide RunSpend, TierSpend, Reserve, Todo;
    match w.callers[c].pc {
      case Locking(_) => PutMoves(w, Do(cfg, w, Acquire(c)), c);
      case Guarded(_) => PutMoves(w, Do(cfg, w, CheckRun(c)), c);
      case RunChecked(_) => PutMoves(w, Do(cfg, w, CheckTier(c)), c);
      case Calling(_, _) => PutMoves(w, Do(cfg, w, Respond(c, FailsOver)), c);
      case Leaving(_) => PutMoves(w, Do(cfg, w, Unlock(c)), c);
      case _ =>
    }
  }

  /** A call that waits for nobody and has not finished can take a step. */
  lemma FreeSteps(cfg: Config, w: World, c: nat)
    requires c in w.callers && !w.callers[c].pc.Finished? && Free(w, c)
    ensures CanStep(cfg, w, c)
  {
    hide RunSpend, TierSpend, Reserve, Keys;
    var a := w.callers[c];
    if a.pc.Choosing? {
      if a.chain != [] && a.chain[0] == T4 {
        PutMoves(w, Do(cfg, w, Replay(c, true)), c);
      } else {
        PutMoves(w, Do(cfg, w, Choose(c)), c);
      }
    } else if a.pc.Locking? && Todo(a) != [] {
      var key := Todo(a)[0];
      assert key in w.locks ==> WaitsFor(w, c, w.locks[key]);
      assert key in Do(cfg, w, Acquire(c)).locks;
      assert Moves(cfg, w, Acquire(c));
    } else {
      InGuardSteps(cfg, w, c);
    }
  }

  /** No set of calls can deadlock: one of them is not waiting for a lock held among them. */
  lemma NoDeadlock(cfg: Config, steps: seq<Step>, stuck: set<nat>)
    requires stuck != {} && forall c :: c in stuck ==> c in Run(cfg, EMPTY, steps).callers
    ensures exists c :: c in stuck && forall d :: d in stuck ==> !WaitsFor(Run(cfg, EMPTY, steps), c, d)
  {
    hide Inv, WaitsFor, CanStep;
    var w := Run(cfg, EMPTY, steps);
    Reached(cfg, steps);
    var c :| c in stuck;
    if d :| d in stuck && WaitsFor(w, c, d) {
      var end := ChainEnds(cfg, w, c);
      OneHolder(w, c);
      if WaitsFor(w, c, end) {
        assert end == d;
      } else if e :| e in stuck && WaitsFor(w, d, e) {
        OneHolder(w, d);
        assert e == end;
      }
    }
  }

  lemma OneHolder(w: World, c: nat)
    ensures forall d, e :: WaitsFor(w, c, d) && WaitsFor(w, c, e) ==> d == e
  {
  }

  /** While any call is unfinished, some call can take a step. */
  lemma SomeCallCanStep(cfg: Config, steps: seq<Step>, c: nat)
    requires c in Run(cfg, EMPTY, steps).callers && !Run(cfg, EMPTY, steps).callers[c].pc.Finished?
    ensures exists d :: d in Run(cfg, EMPTY, steps).callers && CanStep(cfg, Run(cfg, EMPTY, steps), d)
  {
    hide Inv, WaitsFor, CanStep;
    var w := Run(cfg, EMPTY, steps);
    Reached(cfg, steps);
    if Free(w, c) {
      FreeSteps(cfg, w, c);
    } else {
      var d := ChainEnds(cfg, w, c);
    }
  }
}
