/** Who works on a run: which callers take the run's lock, which do not, and for which sets of callers a run never has two
    workers. */
module Workers {
  import opened Models
  import opened Intake
  import opened Tickets

  /** Comes to a run without its lock: whoever has started it, a Slack pick, a decision, the MCP tool. */
  predicate Loose(d: Delivery) { d.started || d.caller in {SlackPick, Decider, McpTool} }

  /** About to take the run through the rail, or at it. */
  predicate Active(phase: Phase) { phase.Calling? || phase.Entering? || phase.Working? }

  predicate OwnsTickets(c: Caller) { c == TicketJob || c == TicketApi }

  predicate Starts(c: Caller) { OwnsTickets(c) || c == OtherDoor || c == EmailDoor }

  /** A run that no ticket can find. */
  predicate Unticketed(r: RunRow) { !(IsTicketChannel(r.source) && r.ref.Some?) }

  /** What is true of anyone at work, whoever else is. */
  ghost predicate Sane(l: Locks, w: World, p: nat) {
    p in w.work ==>
      var d := w.work[p];
      && p < w.next
      && (forall k :: k in d.locks ==> k in w.locks && w.locks[k] == p)
      && (HasRun(d.phase) ==> d.phase.i < |w.runs|)
      && (OwnsTickets(d.caller) <==> d.ticket.Some?)
      && (d.ticket.Some? ==> IsTicketChannel(d.source))
      && (d.phase.SawNone? ==> d.ticket.Some?)
      && (d.ticket.Some? && PastLock(d) ==> l.ticket(d.ticket.value) in d.locks)
      && (OnRun(d.phase) && !Loose(d) ==> l.run(d.phase.i) in d.locks)
      && (d.started ==> (Active(d.phase) || d.phase.Ended?) && Starts(d.caller))
      && (d.caller in {OtherDoor, EmailDoor} ==> d.started)
      && (d.caller == TicketApi && HasRun(d.phase) ==> d.started)
      && (d.caller in {SlackPick, Decider, McpTool} ==> Active(d.phase) || d.phase.Ended?)
      && (d.ticket.Some? && HasRun(d.phase) ==> TicketRun(w.runs[d.phase.i], d.ticket.value))
      && (d.caller == OtherDoor && HasRun(d.phase) ==> Unticketed(w.runs[d.phase.i]))
  }

  predicate StarterOf(w: World, p: nat) { p in w.work && w.work[p].started && HasRun(w.work[p].phase) }

  /** A run has one starter. */
  ghost predicate StartersApart(w: World) {
    forall p, q :: StarterOf(w, p) && StarterOf(w, q) && p != q ==> w.work[p].phase.i != w.work[q].phase.i
  }

  ghost predicate AllSane(l: Locks, w: World) {
    (forall p :: Sane(l, w, p)) && StartersApart(w)
  }

  lemma AfterIs(caller: Caller, phase: Phase, st: RunStatus, s: Step)
    requires OnRun(phase)
    ensures var (next, to) := After(caller, phase, st, s);
            && (OnRun(next) || next.Ended?) && (OnRun(next) ==> next.i == phase.i)
            && (Active(phase) ==> Active(next) || next.Ended?)
            && (phase.Holding? ==> to == st)
            && (phase.Holding? && Active(next) && caller == WebPick ==> st == NeedsInput)
            && (Active(next) && st == Running ==> to == Running)
  {
    hide RunTransitions;
  }

  lemma TurnIsSane(l: Locks, w: World, p: nat, s: Step)
    requires AllSane(l, w)
    ensures AllSane(l, Turn(w, p, s))
  {
    hide After, Starts;
    var v := Turn(w, p, s);
    if p in w.work && OnRun(w.work[p].phase) && w.work[p].phase.i < |w.runs| {
      AfterIs(w.work[p].caller, w.work[p].phase, w.runs[w.work[p].phase.i].status, s);
      assert Sane(l, w, p);
      forall q ensures Sane(l, v, q) { assert Sane(l, w, q); }
    }
  }

  lemma TakeIsSane(l: Locks, w: World, p: nat, lock: int, phase: Phase)
    requires AllSane(l, w) && p in w.work
    requires (w.work[p].phase.WaitTicket? && phase.HaveTicket? && w.work[p].ticket.Some? && lock == l.ticket(w.work[p].ticket.value)) ||
             (w.work[p].phase.WaitRun? && phase == Holding(w.work[p].phase.i) && lock == l.run(phase.i))
    ensures AllSane(l, Take(w, p, lock, phase))
  {
    hide Starts;
    var v := Take(w, p, lock, phase);
    assert Sane(l, w, p);
    forall q ensures Sane(l, v, q) { assert Sane(l, w, q); }
  }

  lemma LookupIsSane(l: Locks, w: World, p: nat)
    requires AllSane(l, w)
    ensures AllSane(l, Do(l, w, Lookup(p)))
  {
    hide Starts;
    var v := Do(l, w, Lookup(p));
    assert Sane(l, w, p);
    forall q ensures Sane(l, v, q) { assert Sane(l, w, q); }
  }

  lemma StartIsSane(l: Locks, w: World, p: nat)
    requires AllSane(l, w)
    ensures AllSane(l, Do(l, w, StartRun(p)))
  {
    hide FindTicketRun;
    var v := Do(l, w, StartRun(p));
    assert Sane(l, w, p);
    RunsInRange(l, w);
    if v != w {
      forall q ensures Sane(l, v, q) { assert Sane(l, w, q); }
      StartersStayApart(w, v, p);
    }
  }

  lemma RunsInRange(l: Locks, w: World)
    requires AllSane(l, w)
    ensures forall q :: q in w.work && HasRun(w.work[q].phase) ==> w.work[q].phase.i < |w.runs|
  {
    forall q | q in w.work && HasRun(w.work[q].phase) ensures w.work[q].phase.i < |w.runs| { assert Sane(l, w, q); }
  }

  /** A lock has one owner. */
  lemma OneOwner(l: Locks, w: World, p: nat, q: nat, k: int)
    requires Sane(l, w, p) && Sane(l, w, q) && p in w.work && q in w.work && k in w.work[p].locks && k in w.work[q].locks
    ensures p == q
  {
    assert w.locks[k] == p;
  }

  /** Only p may have become a starter, of a new run. */
  lemma StartersStayApart(w: World, v: World, p: nat)
    requires StartersApart(w) && |w.runs| <= |v.runs|
    requires forall q :: q in v.work && q != p ==> q in w.work && v.work[q] == w.work[q]
    requires forall q :: q in w.work && HasRun(w.work[q].phase) ==> w.work[q].phase.i < |w.runs|
    requires StarterOf(v, p) ==>
               v.work[p].phase.i >= |w.runs| || (StarterOf(w, p) && v.work[p].phase.i == w.work[p].phase.i)
    ensures StartersApart(v)
  {
  }

  lemma JoinIsSane(l: Locks, w: World, d: Delivery, decided: set<(nat, string)>)
    requires AllSane(l, w) && !d.started && Sane(l, Join(w, d).(decided := decided), w.next)
    ensures AllSane(l, Join(w, d).(decided := decided))
  {
    hide Starts, Loose;
    var v := Join(w, d).(decided := decided);
    forall q ensures Sane(l, v, q) { assert Sane(l, w, q); }
  }

  lemma ArrivalIsSane(l: Locks, w: World, s: Step)
    requires AllSane(l, w) && (s.Deliver? || s.Come? || s.Decide?)
    ensures AllSane(l, Do(l, w, s))
  {
    hide AllSane, FindTicketRun, RunTransitions;
    var v := Do(l, w, s);
    if v != w {
      JoinIsSane(l, w, v.work[w.next], v.decided);
      assert v == Join(w, v.work[w.next]).(decided := v.decided);
    }
  }

  lemma LeaveIsSane(l: Locks, w: World, p: nat)
    requires AllSane(l, w)
    ensures AllSane(l, Do(l, w, Leave(p)))
  {
    hide FindTicketRun, RunTransitions, Starts;
    var v := Do(l, w, Leave(p));
    forall q ensures Sane(l, v, q) { assert Sane(l, w, q); }
  }

  lemma BeginIsSane(l: Locks, w: World, row: RunRow, caller: Caller)
    requires AllSane(l, w) && (caller == EmailDoor || (caller == OtherDoor && Unticketed(row)))
    ensures AllSane(l, Begin(w, row, caller))
  {
    hide FindTicketRun, RunTransitions;
    var v := Begin(w, row, caller);
    forall q ensures Sane(l, v, q) { assert Sane(l, w, q); }
    RunsInRange(l, w);
    StartersStayApart(w, v, w.next);
  }

  lemma SaneKeeps(l: Locks, w: World, s: Step)
    requires AllSane(l, w)
    ensures AllSane(l, Do(l, w, s))
  {
    hide AllSane, FindTicketRun, RunTransitions, Turn, Take, Begin;
    match s {
      case LockTicket(p) =>
        if p in w.work && w.work[p].phase.WaitTicket? && w.work[p].ticket.Some? {
          TakeIsSane(l, w, p, l.ticket(w.work[p].ticket.value), HaveTicket);
        }
      case LockRun(p) =>
        if p in w.work && w.work[p].phase.WaitRun? {
          TakeIsSane(l, w, p, l.run(w.work[p].phase.i), Holding(w.work[p].phase.i));
        }
      case StartRun(p) => StartIsSane(l, w, p);
      case Lookup(p) => LookupIsSane(l, w, p);
      case Check(p, _) => TurnIsSane(l, w, p, s);
      case Peek(p) => TurnIsSane(l, w, p, s);
      case Enter(p) => TurnIsSane(l, w, p, s);
      case Finish(p, _) => TurnIsSane(l, w, p, s);
      case Leave(p) => LeaveIsSane(l, w, p);
      case StartElsewhere(source, ref) =>
        if !(IsTicketChannel(source) && ref.Some?) {
          BeginIsSane(l, w, RunRow(source, ref, RunStatus.Running, false), OtherDoor);
        }
      case InboundEmail(ticket) => BeginIsSane(l, w, RunRow(Email, Some(ticket), RunStatus.Running, false), EmailDoor);
      case _ => ArrivalIsSane(l, w, s);
    }
  }

  lemma {:induction false} RunIsSane(l: Locks, w: World, steps: seq<Step>)
    requires AllSane(l, w)
    ensures AllSane(l, Run(l, w, steps))
    decreases |steps|
  {
    hide AllSane, Do;
    if steps != [] {
      SaneKeeps(l, w, steps[0]);
      RunIsSane(l, Do(l, w, steps[0]), steps[1..]);
    }
  }

  /** Runs of any status, with nobody at work. */
  predicate Idle(w: World) { w.work == map[] && w.locks == map[] }

  lemma IdleIsSane(l: Locks, w: World)
    requires Idle(w)
    ensures AllSane(l, w)
  {
  }

  /** Of any two that are on a run at most one came with the run's lock: the other has started the run, or is a Slack pick, a
      decision or the MCP tool; and at most one has started it. */
  lemma OneLockHolder(l: Locks, w: World, steps: seq<Step>, p: nat, q: nat)
    requires Idle(w)
    requires var v := Run(l, w, steps);
             p in v.work && q in v.work && p != q && OnRun(v.work[p].phase) && OnRun(v.work[q].phase) &&
             v.work[p].phase.i == v.work[q].phase.i
    ensures var v := Run(l, w, steps);
            && (Loose(v.work[p]) || Loose(v.work[q]))
            && !(v.work[p].started && v.work[q].started)
  {
    IdleIsSane(l, w);
    RunIsSane(l, w, steps);
    var v := Run(l, w, steps);
    assert Sane(l, v, p) && Sane(l, v, q);
    var k := l.run(v.work[p].phase.i);
    if k in v.work[p].locks && k in v.work[q].locks {
      OneOwner(l, v, p, q, k);
    }
  }

  // --- for which callers a run has one worker -------------------------------------------------------------------

  /** The caller that a step lets in. */
  predicate Admits(callers: set<Caller>, s: Step) {
    match s
    case Deliver(_, _, job) => (if job then TicketJob else TicketApi) in callers
    case Come(_, caller) => caller in callers
    case Decide(_, _) => Decider in callers
    case StartElsewhere(_, _) => OtherDoor in callers
    case InboundEmail(_) => EmailDoor in callers
    case _ => true
  }

  predicate Only(callers: set<Caller>, steps: seq<Step>) {
    forall i :: 0 <= i < |steps| ==> Admits(callers, steps[i])
  }

  ghost predicate OneWorkerEach(w: World) {
    forall p, q :: p in w.work && q in w.work && p != q && w.work[p].phase.Working? && w.work[q].phase.Working? ==>
      w.work[p].phase.i != w.work[q].phase.i
  }

  /** From runs of any status, every schedule of these callers keeps one worker per run. */
  ghost predicate KeepOneWorker(l: Locks, callers: set<Caller>) {
    forall w, steps :: Idle(w) && Only(callers, steps) ==> OneWorkerEach(Run(l, w, steps))
  }

  /** Nobody who resumes a run, or picks in Slack; no job that names a run where runs are started; and no ticket's job where
      the email surface starts runs of tickets. */
  predicate Exclusive(callers: set<Caller>) {
    && callers !! {SlackPick, Decider, McpTool}
    && (RunJob in callers ==> callers !! {TicketJob, TicketApi, OtherDoor, EmailDoor})
    && (TicketJob in callers ==> EmailDoor !in callers)
  }

  ghost predicate Quiet(w: World, callers: set<Caller>) {
    && (forall p :: p in w.work ==> w.work[p].caller in callers)
    && (forall p, q :: p in w.work && q in w.work && p != q && Active(w.work[p].phase) && Active(w.work[q].phase) ==>
          w.work[p].phase.i != w.work[q].phase.i)
    && (forall p :: p in w.work && w.work[p].started && Active(w.work[p].phase) && w.work[p].phase.i < |w.runs| ==>
          w.runs[w.work[p].phase.i].status == RunStatus.Running)
  }

  /** Whoever holds a run's lock and may go on finds nobody else there. */
  lemma HolderIsAlone(l: Locks, w: World, callers: set<Caller>, p: nat, q: nat)
    requires AllSane(l, w) && Quiet(w, callers) && Exclusive(callers)
    requires p in w.work && q in w.work && p != q && w.work[p].phase.Holding? && Active(w.work[q].phase)
    requires w.work[p].phase.i < |w.runs|
    requires w.work[p].caller == WebPick ==> w.runs[w.work[p].phase.i].status == NeedsInput
    ensures w.work[p].phase.i != w.work[q].phase.i
  {
    assert Sane(l, w, p) && Sane(l, w, q);
    var d, e := w.work[p], w.work[q];
    assert d.caller in callers && e.caller in callers;
    if d.phase.i == e.phase.i {
      var k := l.run(d.phase.i);
      assert k in d.locks;
      if !Loose(e) {
        OneOwner(l, w, p, q, k);
      } else if d.ticket.Some? && e.ticket.Some? {
        OneOwner(l, w, p, q, l.ticket(d.ticket.value));
      }
    }
  }

  /** A turn moves p alone, and with it the status of its run. */
  lemma TurnIs(w: World, p: nat, s: Step)
    requires p in w.work && OnRun(w.work[p].phase) && w.work[p].phase.i < |w.runs|
    ensures var v, d := Turn(w, p, s), w.work[p];
            var (next, to) := After(d.caller, d.phase, w.runs[d.phase.i].status, s);
            v.work == w.work[p := d.(phase := next)] && v.runs == w.runs[d.phase.i := w.runs[d.phase.i].(status := to)]
  {
    hide After;
  }

  /** Whoever else is on the run of p's turn is not active there, or p is not. */
  lemma TurnsAlone(l: Locks, w: World, callers: set<Caller>, p: nat, s: Step, q: nat)
    requires AllSane(l, w) && Quiet(w, callers) && Exclusive(callers)
    requires p in w.work && OnRun(w.work[p].phase) && w.work[p].phase.i < |w.runs|
    requires q in w.work && q != p && Active(w.work[q].phase)
    requires Active(w.work[p].phase) ||
             Active(After(w.work[p].caller, w.work[p].phase, w.runs[w.work[p].phase.i].status, s).0)
    ensures w.work[q].phase.i != w.work[p].phase.i
  {
    hide After, Exclusive, AllSane;
    AfterIs(w.work[p].caller, w.work[p].phase, w.runs[w.work[p].phase.i].status, s);
    if w.work[p].phase.Holding? {
      HolderIsAlone(l, w, callers, p, q);
    }
  }

  lemma TurnIsQuiet(l: Locks, w: World, callers: set<Caller>, p: nat, s: Step)
    requires AllSane(l, w) && Quiet(w, callers) && Exclusive(callers)
    ensures Quiet(Turn(w, p, s), callers)
  {
    hide After, Exclusive, AllSane, Turn;
    if p in w.work && OnRun(w.work[p].phase) && w.work[p].phase.i < |w.runs| {
      var v, d := Turn(w, p, s), w.work[p];
      var i, st := d.phase.i, w.runs[d.phase.i].status;
      TurnIs(w, p, s);
      AfterIs(d.caller, d.phase, st, s);
      StarterIsActive(l, w, p);
      forall q | q in w.work && q != p && Active(w.work[q].phase) && (Active(d.phase) || Active(v.work[p].phase))
        ensures w.work[q].phase.i != i
      {
        TurnsAlone(l, w, callers, p, s, q);
      }
    } else {
      assert Turn(w, p, s) == w by { NoTurn(w, p, s); }
    }
  }

  lemma NoTurn(w: World, p: nat, s: Step)
    requires !(p in w.work && OnRun(w.work[p].phase) && w.work[p].phase.i < |w.runs|)
    ensures Turn(w, p, s) == w
  {
  }

  lemma StarterIsActive(l: Locks, w: World, p: nat)
    requires AllSane(l, w) && p in w.work && OnRun(w.work[p].phase)
    ensures w.work[p].started ==> Active(w.work[p].phase)
  {
    assert Sane(l, w, p);
  }

  /** Whoever arrives keeps clear of the runs that others are on. */
  lemma ArrivalIsQuiet(l: Locks, w: World, callers: set<Caller>, s: Step)
    requires AllSane(l, w) && Quiet(w, callers) && Exclusive(callers) && Admits(callers, s)
    requires s.Deliver? || s.Come? || s.Decide? || s.StartElsewhere? || s.InboundEmail? || s.Leave?
    ensures Quiet(Do(l, w, s), callers)
  {
    hide FindTicketRun, RunTransitions, Sane, StartersApart, Turn, Take;
    RunsInRange(l, w);
  }

  /** Only p moves, to where it is not on a run, or to a run that it has just started. */
  lemma OnlyOneMoves(w: World, v: World, callers: set<Caller>, p: nat)
    requires Quiet(w, callers) && p in w.work && p in v.work && w.runs <= v.runs
    requires v.work == w.work[p := v.work[p]] && v.work[p].caller == w.work[p].caller
    requires forall q :: q in w.work && HasRun(w.work[q].phase) ==> w.work[q].phase.i < |w.runs|
    requires Active(v.work[p].phase) ==> v.work[p].phase.i == |w.runs| < |v.runs| && v.runs[|w.runs|].status == RunStatus.Running
    ensures Quiet(v, callers)
  {
  }

  lemma WaitIsQuiet(l: Locks, w: World, callers: set<Caller>, s: Step, p: nat)
    requires AllSane(l, w) && Quiet(w, callers)
    requires s == LockTicket(p) || s == Lookup(p) || s == StartRun(p) || s == LockRun(p)
    ensures Quiet(Do(l, w, s), callers)
  {
    hide FindTicketRun, Sane, StartersApart, Quiet;
    var v := Do(l, w, s);
    if v != w {
      RunsInRange(l, w);
      OnlyOneMoves(w, v, callers, p);
    }
  }

  lemma QuietKeeps(l: Locks, w: World, callers: set<Caller>, s: Step)
    requires AllSane(l, w) && Quiet(w, callers) && Exclusive(callers) && Admits(callers, s)
    ensures Quiet(Do(l, w, s), callers)
  {
    hide AllSane, Quiet, Exclusive, FindTicketRun, RunTransitions, Turn, Take;
    match s {
      case Check(p, _) => TurnIsQuiet(l, w, callers, p, s);
      case Peek(p) => TurnIsQuiet(l, w, callers, p, s);
      case Enter(p) => TurnIsQuiet(l, w, callers, p, s);
      case Finish(p, _) => TurnIsQuiet(l, w, callers, p, s);
      case LockTicket(p) => WaitIsQuiet(l, w, callers, s, p);
      case Lookup(p) => WaitIsQuiet(l, w, callers, s, p);
      case StartRun(p) => WaitIsQuiet(l, w, callers, s, p);
      case LockRun(p) => WaitIsQuiet(l, w, callers, s, p);
      case _ => ArrivalIsQuiet(l, w, callers, s);
    }
  }

  lemma {:induction false} RunIsQuiet(l: Locks, w: World, callers: set<Caller>, steps: seq<Step>)
    requires AllSane(l, w) && Quiet(w, callers) && Exclusive(callers) && Only(callers, steps)
    ensures Quiet(Run(l, w, steps), callers)
    decreases |steps|
  {
    hide AllSane, Do, Quiet, Exclusive;
    if steps != [] {
      SaneKeeps(l, w, steps[0]);
      QuietKeeps(l, w, callers, steps[0]);
      RunIsQuiet(l, Do(l, w, steps[0]), callers, steps[1..]);
    }
  }

  lemma ExclusiveIsEnough(l: Locks, callers: set<Caller>)
    requires Exclusive(callers)
    ensures KeepOneWorker(l, callers)
  {
    forall w, steps | Idle(w) && Only(callers, steps) ensures OneWorkerEach(Run(l, w, steps)) {
      hide Run, AllSane, Exclusive;
      IdleIsSane(l, w);
      RunIsQuiet(l, w, callers, steps);
      AloneAtWork(Run(l, w, steps), callers);
    }
  }

  lemma AloneAtWork(w: World, callers: set<Caller>)
    requires Quiet(w, callers)
    ensures OneWorkerEach(w)
  {
  }

  /** The names of tickets' locks and runs' locks do not share a hash. */
  ghost predicate Apart(l: Locks) { forall t, i :: l.ticket(t) != l.run(i) }

  /** A single run, nobody at work. */
  function Lone(st: RunStatus): World { World([RunRow(OtherSource("web"), None, st, false)], map[], map[], 0, {}) }

  /** Deliveries p and p + 1 both take run 0 through the rail. */
  ghost predicate BothWork(w: World, p: nat) {
    p in w.work && p + 1 in w.work && w.work[p].phase == Working(0) && w.work[p + 1].phase == Working(0)
  }

  lemma BothIsTwo(w: World, p: nat)
    requires BothWork(w, p)
    ensures !OneWorkerEach(w)
  {
  }

  /** Deliveries p and p + 1, and the status of run 0. */
  ghost predicate Pair(w: World, p: nat, x: Delivery, y: Delivery, st: RunStatus) {
    p in w.work && p + 1 in w.work && w.work[p] == x && w.work[p + 1] == y && w.runs != [] && w.runs[0].status == st
  }

  lemma PairTurns(l: Locks, w: World, p: nat, x: Delivery, y: Delivery, st: RunStatus, s: Step, q: nat)
    requires Pair(w, p, x, y, st) && (q == p || q == p + 1) && (s == Check(q, true) || s == Peek(q) || s == Enter(q))
    requires var d := if q == p then x else y; OnRun(d.phase) && d.phase.i == 0
    ensures var d := if q == p then x else y;
            var (next, to) := After(d.caller, d.phase, st, s);
            Pair(Do(l, w, s), p, if q == p then x.(phase := next) else x, if q == p then y else y.(phase := next), to)
  {
    hide After;
  }

  function EnterSteps(p: nat): seq<Step> { [Peek(p), Peek(p + 1), Enter(p), Enter(p + 1)] }

  /** Two who need no lock read the same status before either goes on. */
  lemma BothEnter(l: Locks, w: World, p: nat, caller: Caller, st: RunStatus)
    requires Pair(w, p, Visitor(caller, Calling(0, caller != SlackPick)), Visitor(caller, Calling(0, caller != SlackPick)), st)
    requires (caller == SlackPick && st == NeedsInput) || (caller in {Decider, McpTool} && st == AwaitingApproval)
    ensures Pair(Run(l, w, EnterSteps(p)), p, Visitor(caller, Working(0)), Visitor(caller, Working(0)), Running)
  {
    hide Do;
    var called, entering, working := Visitor(caller, Calling(0, caller != SlackPick)), Visitor(caller, Entering(0)),
                                     Visitor(caller, Working(0));
    var w1 := Do(l, w, Peek(p));
    var w2 := Do(l, w1, Peek(p + 1));
    var w3 := Do(l, w2, Enter(p));
    var w4 := Do(l, w3, Enter(p + 1));
    PairTurns(l, w, p, called, called, st, Peek(p), p);
    PairTurns(l, w1, p, entering, called, st, Peek(p + 1), p + 1);
    PairTurns(l, w2, p, entering, entering, st, Enter(p), p);
    PairTurns(l, w3, p, working, entering, Running, Enter(p + 1), p + 1);
    Traced(l, [w, w1, w2, w3, w4], EnterSteps(p));
  }

  /** A job that got the run's lock while the run's starter is under way. */
  lemma BothRun(l: Locks, w: World, x: Delivery, y: Delivery)
    requires Pair(w, 0, x, y, Running) && x.phase == Calling(0, false) && y.phase == Holding(0) && y.caller != WebPick
    ensures BothWork(Run(l, w, [Check(1, true), Peek(1), Peek(0)]), 0)
  {
    hide Do;
    var w1 := Do(l, w, Check(1, true));
    var w2 := Do(l, w1, Peek(1));
    var w3 := Do(l, w2, Peek(0));
    PairTurns(l, w, 0, x, y, Running, Check(1, true), 1);
    PairTurns(l, w1, 0, x, y.(phase := Calling(0, false)), Running, Peek(1), 1);
    PairTurns(l, w2, 0, x, y.(phase := Working(0)), Running, Peek(0), 0);
    Traced(l, [w, w1, w2, w3], [Check(1, true), Peek(1), Peek(0)]);
  }

  lemma TwoSteps(l: Locks, w: World, s: Step, t: Step)
    ensures Run(l, w, [s, t]) == Do(l, Do(l, w, s), t)
  {
    hide Do;
    Traced(l, [w, Do(l, w, s), Do(l, Do(l, w, s), t)], [s, t]);
  }

  function First(caller: Caller): Step { if caller == Decider then Decide(0, "A01") else Come(0, caller) }

  function Second(caller: Caller): Step { if caller == Decider then Decide(0, "A02") else Come(0, caller) }

  lemma TwoCome(l: Locks, caller: Caller, w: World)
    requires caller in {SlackPick, Decider, McpTool}
    requires w.work == map[] && w.runs != [] && (0, "A01") !in w.decided && (0, "A02") !in w.decided
    ensures var called := Visitor(caller, Calling(0, caller != SlackPick));
            Pair(Run(l, w, [First(caller), Second(caller)]), w.next, called, called, w.runs[0].status)
  {
    TwoSteps(l, w, First(caller), Second(caller));
  }

  function LooseSteps(caller: Caller, p: nat): seq<Step> { [First(caller), Second(caller)] + EnterSteps(p) }

  /** Two Slack picks, two decisions or two uses of the MCP tool at once, on a run that waits for them. */
  lemma TwoLoose(l: Locks, caller: Caller, w: World)
    requires caller in {SlackPick, Decider, McpTool}
    requires w.work == map[] && w.runs != [] && (0, "A01") !in w.decided && (0, "A02") !in w.decided
    requires w.runs[0].status == if caller == SlackPick then NeedsInput else AwaitingApproval
    ensures Pair(Run(l, w, LooseSteps(caller, w.next)), w.next, Visitor(caller, Working(0)), Visitor(caller, Working(0)), Running)
  {
    hide Do;
    TwoCome(l, caller, w);
    BothEnter(l, Run(l, w, [First(caller), Second(caller)]), w.next, caller, w.runs[0].status);
    RunConcat(l, w, [First(caller), Second(caller)], EnterSteps(w.next), "");
  }

  /** A job that names the run joins its starter. */
  lemma JobJoins(l: Locks, w: World, x: Delivery)
    requires w.work == map[0 := x] && w.next == 1 && x.phase == Calling(0, false)
    requires w.runs != [] && w.runs[0].status == Running && l.run(0) !in w.locks
    ensures BothWork(Run(l, w, [Come(0, RunJob), LockRun(1)] + [Check(1, true), Peek(1), Peek(0)]), 0)
  {
    var y := Visitor(RunJob, Holding(0)).(locks := {} + {l.run(0)});
    var w2 := Do(l, Do(l, w, Come(0, RunJob)), LockRun(1));
    assert Pair(w2, 0, x, y, Running);
    TwoSteps(l, w, Come(0, RunJob), LockRun(1));
    BothRun(l, w2, x, y);
    RunConcat(l, w, [Come(0, RunJob), LockRun(1)], [Check(1, true), Peek(1), Peek(0)], "");
  }

  /** The steps by which a caller has started a run. */
  function StartBy(caller: Caller): seq<Step>
    requires Starts(caller)
  {
    if OwnsTickets(caller) then Started("4711", caller == TicketJob)
    else if caller == OtherDoor then [StartElsewhere(OtherSource("web"), None)] else [InboundEmail("4711")]
  }

  lemma StartedBy(l: Locks, caller: Caller)
    requires Starts(caller) && Apart(l)
    ensures var w := Run(l, EMPTY, StartBy(caller));
            && w.next == 1 && |w.runs| == 1 && w.runs[0].status == Running && l.run(0) !in w.locks
            && w.work.Keys == {0} && w.work[0].phase == Calling(0, false)
  {
    if OwnsTickets(caller) {
      StartsOne(l, "4711", caller == TicketJob);
    } else {
      var s := StartBy(caller)[0];
      Traced(l, [EMPTY, Do(l, EMPTY, s)], [s]);
    }
  }

  lemma LooseFromIdle(l: Locks, caller: Caller)
    requires caller in {SlackPick, Decider, McpTool}
    ensures BothWork(Run(l, Lone(if caller == SlackPick then NeedsInput else AwaitingApproval), LooseSteps(caller, 0)), 0)
  {
    hide Run;
    TwoLoose(l, caller, Lone(if caller == SlackPick then NeedsInput else AwaitingApproval));
  }

  function JobSteps(): seq<Step> { [Come(0, RunJob), LockRun(1)] + [Check(1, true), Peek(1), Peek(0)] }

  /** Whoever starts a run may be joined by a job that names it. */
  lemma StarterAndJob(l: Locks, caller: Caller)
    requires Starts(caller) && Apart(l)
    ensures BothWork(Run(l, EMPTY, StartBy(caller) + JobSteps()), 0)
  {
    hide Do, Run, StartBy, Apart;
    StartedBy(l, caller);
    var w := Run(l, EMPTY, StartBy(caller));
    assert w.work == map[0 := w.work[0]];
    JobJoins(l, w, w.work[0]);
    RunConcat(l, EMPTY, StartBy(caller), JobSteps(), "");
  }

  /** Steps of others leave a delivery alone. */
  predicate Spares(s: Step, p: nat) {
    match s
    case LockTicket(q) => q != p
    case Lookup(q) => q != p
    case StartRun(q) => q != p
    case LockRun(q) => q != p
    case Check(q, _) => q != p
    case Peek(q) => q != p
    case Enter(q) => q != p
    case Finish(q, _) => q != p
    case Leave(q) => q != p
    case _ => true
  }

  lemma StepLeaves(l: Locks, w: World, s: Step, p: nat)
    requires p in w.work && p < w.next && Spares(s, p)
    ensures var v := Do(l, w, s); p in v.work && v.work[p] == w.work[p] && p < v.next
  {
    hide FindTicketRun, After;
  }

  lemma {:induction false} StepsLeave(l: Locks, w: World, steps: seq<Step>, p: nat)
    requires p in w.work && p < w.next && forall i :: 0 <= i < |steps| ==> Spares(steps[i], p)
    ensures var v := Run(l, w, steps); p in v.work && v.work[p] == w.work[p]
    decreases |steps|
  {
    hide Do, Spares;
    if steps != [] {
      StepLeaves(l, w, steps[0], p);
      StepsLeave(l, Do(l, w, steps[0]), steps[1..], p);
    }
  }

  function EmailSteps(ticket: string): seq<Step> {
    [InboundEmail(ticket)] + NextJob(ticket, Freshservice, 1) + [Peek(0)]
  }

  /** The email surface starts a run of a ticket without the ticket's lock, and the ticket's job joins it. */
  lemma EmailAndTicketJob(l: Locks, ticket: string)
    requires l.ticket(ticket) != l.run(0)
    ensures BothWork(Run(l, EMPTY, EmailSteps(ticket)), 0)
  {
    hide Do, Run;
    var row := RunRow(Email, Some(ticket), Running, false);
    var x := Delivery(EmailDoor, None, Email, Calling(0, false), {}, true);
    var w1 := World([row], map[], map[0 := x], 1, {});
    EmailStarts(l, ticket, w1);
    assert FindTicketRun(w1.runs, ticket) == Some(0);
    FoundAndLocked(l, w1, ticket, Freshservice, 0);
    StepsLeave(l, w1, NextJob(ticket, Freshservice, 1), 0);
    var w2 := Run(l, w1, NextJob(ticket, Freshservice, 1));
    PairTurns(l, w2, 0, x, w2.work[1], Running, Peek(0), 0);
    Traced(l, [w2, Do(l, w2, Peek(0))], [Peek(0)]);
    RunConcat(l, EMPTY, [InboundEmail(ticket)], NextJob(ticket, Freshservice, 1), ticket);
    RunConcat(l, EMPTY, [InboundEmail(ticket)] + NextJob(ticket, Freshservice, 1), [Peek(0)], ticket);
  }

  lemma EmailStarts(l: Locks, ticket: string, w: World)
    requires w == World([RunRow(Email, Some(ticket), Running, false)], map[],
                        map[0 := Delivery(EmailDoor, None, Email, Calling(0, false), {}, true)], 1, {})
    ensures Run(l, EMPTY, [InboundEmail(ticket)]) == w
  {
    assert Do(l, EMPTY, InboundEmail(ticket)) == w;
    Traced(l, [EMPTY, w], [InboundEmail(ticket)]);
  }

  lemma WitnessesAreOfTheirCallers(caller: Caller)
    ensures Only({caller}, LooseSteps(caller, 0)) || caller !in {SlackPick, Decider, McpTool}
    ensures Starts(caller) ==> Only({caller, RunJob}, StartBy(caller) + JobSteps())
    ensures Only({TicketJob, EmailDoor}, EmailSteps("4711"))
  {
  }

  lemma NotKept(l: Locks, callers: set<Caller>, w: World, steps: seq<Step>)
    requires Idle(w) && Only(callers, steps) && BothWork(Run(l, w, steps), 0)
    ensures !KeepOneWorker(l, callers)
  {
    BothIsTwo(Run(l, w, steps), 0);
  }

  lemma OnlyMore(few: set<Caller>, many: set<Caller>, steps: seq<Step>)
    requires Only(few, steps) && few <= many
    ensures Only(many, steps)
  {
  }

  /** The run's lock serialises work on a run exactly for these sets of callers: with any other set some schedule has two
      workers on one run. */
  lemma OneWorkerExactly(l: Locks, callers: set<Caller>)
    requires Apart(l)
    ensures KeepOneWorker(l, callers) <==> Exclusive(callers)
  {
    hide KeepOneWorker, Run, Only, BothWork, LooseSteps, StartBy, EmailSteps, JobSteps;
    if Exclusive(callers) {
      ExclusiveIsEnough(l, callers);
    } else if !(callers !! {SlackPick, Decider, McpTool}) {
      var c :| c in callers && c in {SlackPick, Decider, McpTool};
      LooseFromIdle(l, c);
      WitnessesAreOfTheirCallers(c);
      OnlyMore({c}, callers, LooseSteps(c, 0));
      NotKept(l, callers, Lone(if c == SlackPick then NeedsInput else AwaitingApproval), LooseSteps(c, 0));
    } else if RunJob in callers {
      var c :| c in callers && c in {TicketJob, TicketApi, OtherDoor, EmailDoor};
      StarterAndJob(l, c);
      WitnessesAreOfTheirCallers(c);
      OnlyMore({c, RunJob}, callers, StartBy(c) + JobSteps());
      NotKept(l, callers, EMPTY, StartBy(c) + JobSteps());
    } else {
      EmailAndTicketJob(l, "4711");
      WitnessesAreOfTheirCallers(EmailDoor);
      OnlyMore({TicketJob, EmailDoor}, callers, EmailSteps("4711"));
      NotKept(l, callers, EMPTY, EmailSteps("4711"));
    }
  }

  // --- from the start -------------------------------------------------------------------------------------------

  /** A starter has taken its run to where it waits for decisions, and left. */
  function WaitSteps(): seq<Step> { [Peek(0), Finish(0, AwaitingApproval), Leave(0)] }

  lemma LastLeaves(l: Locks, w: World)
    requires w.work.Keys == {0} && forall k :: k in w.locks ==> w.locks[k] == 0
    ensures Do(l, w, Leave(0)) == w.(work := map[], locks := map[])
  {
    var v := Do(l, w, Leave(0));
    assert v.work == map[];
    assert forall k :: k !in v.locks;
    assert v.locks == map[];
  }

  lemma WaitsForDecisions(l: Locks, w: World, x: Delivery)
    requires w.work == map[0 := x] && x.phase == Calling(0, false) && |w.runs| == 1 && w.runs[0].status == Running
    requires forall k :: k in w.locks ==> w.locks[k] == 0
    ensures Run(l, w, WaitSteps()) ==
            w.(work := map[], locks := map[], runs := [w.runs[0].(status := AwaitingApproval)])
  {
    var w1 := w.(work := map[0 := x.(phase := Working(0))]);
    var w2 := w.(work := map[0 := x.(phase := Ended)], runs := [w.runs[0].(status := AwaitingApproval)]);
    assert w.runs[0 := w.runs[0].(status := Running)] == w.runs;
    assert Do(l, w, Peek(0)) == w1;
    assert Do(l, w1, Finish(0, AwaitingApproval)) == w2;
    hide Do;
    LastLeaves(l, w2);
    Traced(l, [w, w1, w2, Do(l, w2, Leave(0))], WaitSteps());
  }

  /** Two held actions of one run are decided at the same moment: both decisions resume it, and two passes work on it, neither
      of them the delivery that started the run. */
  lemma TwoDecisionsMeet(l: Locks, ticket: string)
    ensures var w := Run(l, EMPTY, Started(ticket, true) + WaitSteps() + LooseSteps(Decider, 1));
            && 1 in w.work && w.work[1].caller == Decider && w.work[1].phase == Working(0) && !w.work[1].started
            && 2 in w.work && w.work[2].caller == Decider && w.work[2].phase == Working(0) && !w.work[2].started
  {
    hide Do, Run;
    StartsOne(l, ticket, true);
    var w := StartedWorld(l, ticket, true);
    WaitsForDecisions(l, w, w.work[0]);
    var v := Run(l, w, WaitSteps());
    TwoLoose(l, Decider, v);
    RunConcat(l, EMPTY, Started(ticket, true), WaitSteps(), "");
    RunConcat(l, EMPTY, Started(ticket, true) + WaitSteps(), LooseSteps(Decider, 1), "");
  }

  /** A decision resumes the run. */
  lemma Resumes(l: Locks, w: World)
    requires w.work == map[] && w.runs != [] && w.runs[0].status == AwaitingApproval && (0, "A01") !in w.decided
    ensures var v := Run(l, w, [Decide(0, "A01"), Peek(w.next), Enter(w.next)]);
            && w.next in v.work && v.work[w.next] == Visitor(Decider, Working(0)) && v.next == w.next + 1
            && v.runs == w.runs[0 := w.runs[0].(status := Running)] && v.locks == w.locks
  {
    var p := w.next;
    var w1 := Do(l, w, Decide(0, "A01"));
    var w2 := Do(l, w1, Peek(p));
    assert w2.runs == w.runs && w2.work[p] == Visitor(Decider, Entering(0));
    var w3 := Do(l, w2, Enter(p));
    Traced(l, [w, w1, w2, w3], [Decide(0, "A01"), Peek(p), Enter(p)]);
  }

  /** A ticket's job, delivered again because its worker died before it settled, finds the run that a decision has just set to
      running and starts it over from Discover beside the decision's pass. */
  lemma DecisionMeetsJob(l: Locks, ticket: string)
    requires l.ticket(ticket) != l.run(0)
    ensures var w := Run(l, EMPTY, Started(ticket, true) + WaitSteps() + [Decide(0, "A01"), Peek(1), Enter(1)]
                                   + NextJob(ticket, Freshservice, 2));
            && 1 in w.work && w.work[1].caller == Decider && w.work[1].phase == Working(0)
            && 2 in w.work && w.work[2].phase == Working(0) && |w.runs| == 1
  {
    hide Do, Run, FindTicketRun;
    StartsOne(l, ticket, true);
    var w := StartedWorld(l, ticket, true);
    WaitsForDecisions(l, w, w.work[0]);
    var v := Run(l, w, WaitSteps());
    Resumes(l, v);
    var x := Run(l, v, [Decide(0, "A01"), Peek(1), Enter(1)]);
    assert TicketRun(x.runs[0], ticket) && FindTicketRun(x.runs, ticket) == Some(0);
    FoundAndLocked(l, x, ticket, Freshservice, 0);
    StepsLeave(l, x, NextJob(ticket, Freshservice, 2), 1);
    RunConcat(l, EMPTY, Started(ticket, true), WaitSteps(), "");
    RunConcat(l, EMPTY, Started(ticket, true) + WaitSteps(), [Decide(0, "A01"), Peek(1), Enter(1)], "");
    RunConcat(l, EMPTY, Started(ticket, true) + WaitSteps() + [Decide(0, "A01"), Peek(1), Enter(1)],
              NextJob(ticket, Freshservice, 2), "");
  }
}
