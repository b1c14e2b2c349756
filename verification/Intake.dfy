/** Everyone who takes a run through the rail, over any number of paths, processes and crashes, under named locks or without.

    A lock is named by a hash of its key, so two keys may share a lock; that only excludes more. Each lock is held by a
    transaction of its own, so not even its holder can take it twice, and it ends with that transaction, also in a
    crash. */
module Intake {
  import opened Models

  datatype Source = Freshservice | Email | OtherSource(name: string)

  predicate IsTicketChannel(s: Source) { s.Freshservice? || s.Email? }

  /** A runs row. `locked` is history: the run was started by a delivery that held the ticket's lock. */
  datatype RunRow = RunRow(source: Source, ref: Option<string>, status: RunStatus, locked: bool)

  /** Who takes a run through the rail. A ticket's job starts its run or continues it, the API only starts one. A job may
      also name a run. A picked candidate comes from the web or from Slack. A recorded decision and the MCP tool resume
      a run that waits. The other doors and the email surface start runs of their own. */
  datatype Caller = TicketJob | TicketApi | RunJob | WebPick | SlackPick | Decider | McpTool | OtherDoor | EmailDoor

  datatype Phase =
    | WaitTicket                        // before the ticket's lock
    | HaveTicket                        // the lock is held, nothing looked up
    | SawNone                           // the ticket has no run
    | WaitRun(i: nat)                   // before the run's lock
    | Holding(i: nat)                   // the run's lock is held, its status not yet read
    | Calling(i: nat, resume: bool)     // about to call the runner: to resume the run, or to run it from Discover
    | Entering(i: nat)                  // the runner has read a status from which it may go on, and has not written yet
    | Working(i: nat)                   // taking the run through the rail
    | Ended                             // done with the run; its locks end with Leave

  /** Someone at work. `started` says that it has started the run it is on. */
  datatype Delivery = Delivery(caller: Caller, ticket: Option<string>, source: Source, phase: Phase, locks: set<int>,
                               started: bool)

  /** `decided` holds the recorded decisions: one per run and action. */
  datatype World = World(runs: seq<RunRow>, locks: map<int, nat>, work: map<nat, Delivery>, next: nat,
                         decided: set<(nat, string)>)

  datatype Step =
    | Deliver(ticket: string, source: Source, job: bool)  // a rail.run job, or POST /v1/runs
    | Come(i: nat, caller: Caller)                         // a job that names a run, a pick, the MCP tool
    | Decide(i: nat, action: string)                       // a decision that was recorded, by any door
    | StartElsewhere(source: Source, ref: Option<string>)  // chat, web, voice and MCP doors, or a channel without ticket
    | InboundEmail(ticket: string)                         // the email surface's own path, which takes no lock
    | LockTicket(p: nat)
    | Lookup(p: nat)
    | StartRun(p: nat)
    | LockRun(p: nat)
    | Check(p: nat, decided: bool)                         // reads the status under the run's lock
    | Peek(p: nat)                                         // the runner reads the status
    | Enter(p: nat)                                        // the runner sets it to running
    | Finish(p: nat, to: RunStatus)                        // the pass ends with a status
    | Leave(p: nat)                                        // done, failed or crashed

  /** The names of the locks, hashed. */
  datatype Locks = Locks(ticket: string -> int, run: nat -> int)

  predicate TicketRun(r: RunRow, ticket: string) { IsTicketChannel(r.source) && r.ref == Some(ticket) }

  /** The latest run of a ticket, or None. */
  function FindTicketRun(runs: seq<RunRow>, ticket: string): (r: Option<nat>)
    ensures r.None? <==> forall i :: 0 <= i < |runs| ==> !TicketRun(runs[i], ticket)
    ensures r.Some? ==> r.value < |runs| && TicketRun(runs[r.value], ticket) &&
                        forall i :: r.value < i < |runs| ==> !TicketRun(runs[i], ticket)
  {
    if runs == [] then None
    else if TicketRun(runs[|runs| - 1], ticket) then Some(|runs| - 1)
    else FindTicketRun(runs[..|runs| - 1], ticket)
  }

  function Put(w: World, p: nat, d: Delivery): World { w.(work := w.work[p := d]) }

  function Join(w: World, d: Delivery): World { Put(w, w.next, d).(next := w.next + 1) }

  /** Somebody who comes to a run without a ticket. */
  function Visitor(caller: Caller, phase: Phase): Delivery { Delivery(caller, None, Freshservice, phase, {}, false) }

  /** A new run, and whoever started it about to take it through the rail. */
  function Begin(w: World, row: RunRow, caller: Caller): World {
    Join(w.(runs := w.runs + [row]), Delivery(caller, None, row.source, Calling(|w.runs|, false), {}, true))
  }

  function Take(w: World, p: nat, lock: int, phase: Phase): World
    requires p in w.work
  {
    if lock in w.locks then w
    else Put(w, p, w.work[p].(phase := phase, locks := w.work[p].locks + {lock})).(locks := w.locks[lock := p])
  }

  /** At a run: past its lock, or without need of it. */
  predicate OnRun(phase: Phase) { phase.Holding? || phase.Calling? || phase.Entering? || phase.Working? }

  predicate HasRun(phase: Phase) { phase.WaitRun? || OnRun(phase) }

  /** What reading or writing the status does to a phase, and to the status. */
  function After(caller: Caller, phase: Phase, st: RunStatus, s: Step): (Phase, RunStatus)
    requires OnRun(phase)
  {
    var i := phase.i;
    match s
    case Check(_, decided) =>
      if !phase.Holding? then (phase, st)
      else if caller == WebPick then (if st == NeedsInput then Calling(i, false) else Ended, st)
      else if st == Running then (Calling(i, false), st)
      else if st == AwaitingApproval && decided then (Calling(i, true), st)
      else (Ended, st)
    case Peek(_) =>
      if !phase.Calling? then (phase, st)
      else if phase.resume then (if st == AwaitingApproval then Entering(i) else Ended, st)
      else (if st == Running then Working(i) else if st == NeedsInput then Entering(i) else Ended, st)
    case Enter(_) =>
      if !phase.Entering? then (phase, st)
      else if st == Running || Running in RunTransitions(st) then (Working(i), Running) else (Ended, st)
    case Finish(_, to) =>
      if !phase.Working? || to == Running then (phase, st)
      else (Ended, if to in RunTransitions(st) then to else st)
    case _ => (phase, st)
  }

  /** A step of p that reads or writes the status of its run. */
  function Turn(w: World, p: nat, s: Step): World {
    if p !in w.work || !OnRun(w.work[p].phase) || w.work[p].phase.i >= |w.runs| then w
    else
      var d := w.work[p];
      var i := d.phase.i;
      var (phase, st) := After(d.caller, d.phase, w.runs[i].status, s);
      Put(w, p, d.(phase := phase)).(runs := w.runs[i := w.runs[i].(status := st)])
  }

  function Arrive(w: World, i: nat, caller: Caller): World {
    if i >= |w.runs| then w
    else
      match caller
      case RunJob => Join(w, Visitor(caller, WaitRun(i)))
      case WebPick => Join(w, Visitor(caller, WaitRun(i)))
      case SlackPick => Join(w, Visitor(caller, Calling(i, false)))
      case McpTool => Join(w, Visitor(caller, Calling(i, true)))
      case _ => w
  }

  function Do(l: Locks, w: World, s: Step): World {
    match s
    case Deliver(ticket, source, job) =>
      if !IsTicketChannel(source) then w
      else Join(w, Delivery(if job then TicketJob else TicketApi, Some(ticket), source, WaitTicket, {}, false))
    case Come(i, caller) => Arrive(w, i, caller)
    case Decide(i, action) =>
      if i >= |w.runs| || (i, action) in w.decided then w
      else Join(w, Visitor(Decider, Calling(i, true))).(decided := w.decided + {(i, action)})
    case StartElsewhere(source, ref) =>
      if IsTicketChannel(source) && ref.Some? then w
      else Begin(w, RunRow(source, ref, RunStatus.Running, false), OtherDoor)
    case InboundEmail(ticket) => Begin(w, RunRow(Email, Some(ticket), RunStatus.Running, false), EmailDoor)
    case LockTicket(p) =>
      if p !in w.work || !w.work[p].phase.WaitTicket? || w.work[p].ticket.None? then w
      else Take(w, p, l.ticket(w.work[p].ticket.value), HaveTicket)
    case Lookup(p) =>
      if p !in w.work || !w.work[p].phase.HaveTicket? || w.work[p].ticket.None? then w
      else
        var found := FindTicketRun(w.runs, w.work[p].ticket.value);
        Put(w, p, w.work[p].(phase := if found.None? then SawNone
                                      else if w.work[p].caller == TicketJob && w.runs[found.value].status == RunStatus.Running
                                      then WaitRun(found.value) else Ended))
    case StartRun(p) =>
      if p !in w.work || !w.work[p].phase.SawNone? then w
      else
        Put(w, p, w.work[p].(phase := Calling(|w.runs|, false), started := true)).(
          runs := w.runs + [RunRow(w.work[p].source, w.work[p].ticket, RunStatus.Running, true)])
    case LockRun(p) =>
      if p !in w.work || !w.work[p].phase.WaitRun? then w
      else Take(w, p, l.run(w.work[p].phase.i), Holding(w.work[p].phase.i))
    case Check(p, _) => Turn(w, p, s)
    case Peek(p) => Turn(w, p, s)
    case Enter(p) => Turn(w, p, s)
    case Finish(p, _) => Turn(w, p, s)
    case Leave(p) =>
      w.(work := w.work - {p}, locks := map k | k in w.locks && w.locks[k] != p :: w.locks[k])
  }

  function Run(l: Locks, w: World, steps: seq<Step>): World
    decreases |steps|
  {
    if steps == [] then w else Run(l, Do(l, w, steps[0]), steps[1..])
  }

  const EMPTY: World := World([], map[], map[], 0, {})

  // --- what holds in every reachable world ----------------------------------------------------------------------

  predicate PastLock(d: Delivery) { !d.phase.WaitTicket? }

  /** Locks are owned by whoever lists them; a delivery past the ticket's lock still has it; and one that saw no run is
      right that no delivery has started one. */
  ghost predicate WorkOk(l: Locks, w: World, p: nat) {
    p in w.work ==>
      var d := w.work[p];
      && p < w.next
      && (d.ticket.Some? ==> IsTicketChannel(d.source))
      && (forall k :: k in d.locks ==> k in w.locks && w.locks[k] == p)
      && (d.ticket.Some? && PastLock(d) ==> l.ticket(d.ticket.value) in d.locks)
      && (d.phase.SawNone? ==> d.ticket.Some? && forall i :: 0 <= i < |w.runs| && w.runs[i].locked ==> w.runs[i].ref != d.ticket)
      && (HasRun(d.phase) ==> d.phase.i < |w.runs|)
  }

  ghost predicate RunsOk(runs: seq<RunRow>) {
    && (forall i :: 0 <= i < |runs| && runs[i].locked ==> runs[i].ref.Some? && IsTicketChannel(runs[i].source))
    && (forall i, j :: 0 <= i < j < |runs| && runs[i].locked && runs[j].locked ==> runs[i].ref != runs[j].ref)
  }

  ghost predicate Inv(l: Locks, w: World) {
    && (forall p :: WorkOk(l, w, p))
    && RunsOk(w.runs)
  }

  lemma TakeKeeps(l: Locks, w: World, p: nat, lock: int, phase: Phase)
    requires Inv(l, w) && p in w.work && (phase.HaveTicket? || phase.Holding?)
    requires w.work[p].ticket.Some? && phase.HaveTicket? ==> lock == l.ticket(w.work[p].ticket.value)
    requires phase.Holding? ==> w.work[p].phase.WaitRun? && phase.i < |w.runs|
    ensures Inv(l, Take(w, p, lock, phase))
  {
    var v := Take(w, p, lock, phase);
    assert WorkOk(l, w, p);
    forall q ensures WorkOk(l, v, q) { assert WorkOk(l, w, q); }
  }

  lemma TicketsDiffer(l: Locks, w: World, p: nat, q: nat)
    requires Inv(l, w) && p in w.work && q in w.work && p != q && w.work[p].phase.SawNone? && w.work[q].phase.SawNone?
    ensures w.work[p].ticket != w.work[q].ticket
  {
    assert WorkOk(l, w, p) && WorkOk(l, w, q);
    var k := l.ticket(w.work[p].ticket.value);
    assert k in w.work[p].locks && w.locks[k] == p;
  }

  /** A delivery that saw no run starts one while it still holds the lock: nobody else can have seen none. */
  lemma StartKeeps(l: Locks, w: World, p: nat)
    requires Inv(l, w)
    ensures Inv(l, Do(l, w, StartRun(p)))
  {
    var v := Do(l, w, StartRun(p));
    if v != w {
      assert WorkOk(l, w, p);
      forall q ensures WorkOk(l, v, q) {
        assert WorkOk(l, w, q);
        if q in w.work && q != p && w.work[q].phase.SawNone? {
          TicketsDiffer(l, w, p, q);
        }
      }
    }
  }

  lemma LookupKeeps(l: Locks, w: World, p: nat)
    requires Inv(l, w)
    ensures Inv(l, Do(l, w, Lookup(p)))
  {
    var v := Do(l, w, Lookup(p));
    if v != w {
      assert WorkOk(l, w, p);
      assert forall i :: 0 <= i < |w.runs| && w.runs[i].locked && w.runs[i].ref == w.work[p].ticket ==>
               TicketRun(w.runs[i], w.work[p].ticket.value);
      forall q ensures WorkOk(l, v, q) { assert WorkOk(l, w, q); }
    }
  }

  lemma TurnKeeps(l: Locks, w: World, p: nat, s: Step)
    requires Inv(l, w)
    ensures Inv(l, Turn(w, p, s))
  {
    hide RunTransitions;
    var v := Turn(w, p, s);
    assert WorkOk(l, w, p);
    forall q ensures WorkOk(l, v, q) { assert WorkOk(l, w, q); }
  }

  lemma ArrivalKeeps(l: Locks, w: World, s: Step)
    requires Inv(l, w)
    requires s.Deliver? || s.Come? || s.Decide? || s.StartElsewhere? || s.InboundEmail? || s.Leave?
    ensures Inv(l, Do(l, w, s))
  {
    hide FindTicketRun, RunTransitions;
    var v := Do(l, w, s);
    forall q ensures WorkOk(l, v, q) { assert WorkOk(l, w, q); }
  }

  lemma StepKeeps(l: Locks, w: World, s: Step)
    requires Inv(l, w)
    ensures Inv(l, Do(l, w, s))
  {
    hide Inv, FindTicketRun, RunTransitions, Turn;
    match s {
      case LockTicket(p) =>
        if p in w.work && w.work[p].phase.WaitTicket? && w.work[p].ticket.Some? {
          TakeKeeps(l, w, p, l.ticket(w.work[p].ticket.value), HaveTicket);
        }
      case LockRun(p) =>
        if p in w.work && w.work[p].phase.WaitRun? {
          WorkAt(l, w, p);
          TakeKeeps(l, w, p, l.run(w.work[p].phase.i), Holding(w.work[p].phase.i));
        }
      case StartRun(p) => StartKeeps(l, w, p);
      case Lookup(p) => LookupKeeps(l, w, p);
      case Check(p, _) => TurnKeeps(l, w, p, s);
      case Peek(p) => TurnKeeps(l, w, p, s);
      case Enter(p) => TurnKeeps(l, w, p, s);
      case Finish(p, _) => TurnKeeps(l, w, p, s);
      case _ => ArrivalKeeps(l, w, s);
    }
  }

  lemma WorkAt(l: Locks, w: World, p: nat)
    requires Inv(l, w) && p in w.work
    ensures WorkOk(l, w, p)
  {
  }

  lemma {:induction false} RunKeeps(l: Locks, w: World, steps: seq<Step>)
    requires Inv(l, w)
    ensures Inv(l, Run(l, w, steps))
    decreases |steps|
  {
    hide Inv, Do;
    if steps != [] {
      StepKeeps(l, w, steps[0]);
      RunKeeps(l, Do(l, w, steps[0]), steps[1..]);
    }
  }

  function Emails(steps: seq<Step>, ticket: string): nat {
    if steps == [] then 0 else (if steps[0] == InboundEmail(ticket) then 1 else 0) + Emails(steps[1..], ticket)
  }

  function RunsOf(runs: seq<RunRow>, ticket: string, locked: bool): nat {
    if runs == [] then 0
    else
      var r := runs[|runs| - 1];
      RunsOf(runs[..|runs| - 1], ticket, locked) + if TicketRun(r, ticket) && r.locked == locked then 1 else 0
  }

  lemma {:induction false} RunsOfStatus(runs: seq<RunRow>, i: nat, st: RunStatus, ticket: string, locked: bool)
    requires i < |runs|
    ensures RunsOf(runs[i := runs[i].(status := st)], ticket, locked) == RunsOf(runs, ticket, locked)
    decreases |runs|
  {
    var n := |runs| - 1;
    var next := runs[i := runs[i].(status := st)];
    if i < n {
      RunsOfStatus(runs[..n], i, st, ticket, locked);
      assert next[..n] == runs[..n][i := runs[i].(status := st)];
    } else {
      assert next[..n] == runs[..n];
    }
  }

  lemma {:induction false} AtMostOneLocked(runs: seq<RunRow>, ticket: string)
    requires RunsOk(runs)
    ensures RunsOf(runs, ticket, true) <= 1
    ensures RunsOf(runs, ticket, true) == 1 ==> exists i :: 0 <= i < |runs| && runs[i].locked && runs[i].ref == Some(ticket)
    decreases |runs|
  {
    if runs != [] {
      AtMostOneLocked(runs[..|runs| - 1], ticket);
      if RunsOf(runs[..|runs| - 1], ticket, true) == 1 {
        var i :| 0 <= i < |runs| - 1 && runs[i].locked && runs[i].ref == Some(ticket);
      }
    }
  }

  lemma LockKeepsRuns(l: Locks, w: World, s: Step)
    requires s.LockTicket? || s.LockRun?
    ensures Do(l, w, s).runs == w.runs
  {
  }

  lemma TurnUnlocked(w: World, p: nat, s: Step, ticket: string, locked: bool)
    ensures RunsOf(Turn(w, p, s).runs, ticket, locked) == RunsOf(w.runs, ticket, locked)
  {
    hide After, RunsOf;
    if p in w.work && OnRun(w.work[p].phase) && w.work[p].phase.i < |w.runs| {
      var i := w.work[p].phase.i;
      RunsOfStatus(w.runs, i, After(w.work[p].caller, w.work[p].phase, w.runs[i].status, s).1, ticket, locked);
    }
  }

  lemma StepUnlocked(l: Locks, w: World, s: Step, ticket: string)
    ensures RunsOf(Do(l, w, s).runs, ticket, false) ==
            RunsOf(w.runs, ticket, false) + if s == InboundEmail(ticket) then 1 else 0
  {
    hide FindTicketRun, Take, RunTransitions, Turn;
    var v := Do(l, w, s);
    match s {
      case LockTicket(_) => LockKeepsRuns(l, w, s);
      case LockRun(_) => LockKeepsRuns(l, w, s);
      case Check(p, _) => TurnUnlocked(w, p, s, ticket, false);
      case Peek(p) => TurnUnlocked(w, p, s, ticket, false);
      case Enter(p) => TurnUnlocked(w, p, s, ticket, false);
      case Finish(p, _) => TurnUnlocked(w, p, s, ticket, false);
      case StartRun(_) => assert v == w || v.runs[..|w.runs|] == w.runs;
      case StartElsewhere(_, _) => assert v == w || v.runs[..|w.runs|] == w.runs;
      case InboundEmail(_) => assert v.runs[..|w.runs|] == w.runs;
      case _ =>
    }
  }

  /** Runs that no delivery started come from the email surface, one per message. */
  lemma {:induction false} UnlockedAreEmails(l: Locks, w: World, steps: seq<Step>, ticket: string)
    ensures RunsOf(Run(l, w, steps).runs, ticket, false) == RunsOf(w.runs, ticket, false) + Emails(steps, ticket)
    decreases |steps|
  {
    hide Do, RunsOf;
    if steps != [] {
      StepUnlocked(l, w, steps[0], ticket);
      UnlockedAreEmails(l, Do(l, w, steps[0]), steps[1..], ticket);
    }
  }

  // --- what becomes of a run whose lock is held -----------------------------------------------------------------

  /** Whoever holds a run's lock and is not overtaken: a job runs a run that was never finished, and resumes one that awaits
      approval once something in it was decided; a candidate picked on the web runs one that needs input. Nothing else is
      touched, and the run then stands in `running`. */
  lemma HolderGoesOn(l: Locks, w: World, p: nat, decided: bool)
    requires p in w.work && w.work[p].phase.Holding? && w.work[p].phase.i < |w.runs|
    ensures var d, i := w.work[p], w.work[p].phase.i;
            var st := w.runs[i].status;
            var works := if d.caller == WebPick then st == NeedsInput
                         else st == RunStatus.Running || (st == AwaitingApproval && decided);
            Run(l, w, [Check(p, decided), Peek(p), Enter(p)]) ==
            if works then Put(w, p, d.(phase := Working(i))).(runs := w.runs[i := w.runs[i].(status := RunStatus.Running)])
            else Put(w, p, d.(phase := Ended))
  {
    var d, i := w.work[p], w.work[p].phase.i;
    var w1 := Do(l, w, Check(p, decided));
    var w2 := Do(l, w1, Peek(p));
    var w3 := Do(l, w2, Enter(p));
    var steps := [Check(p, decided), Peek(p), Enter(p)];
    assert steps[1..] == [Peek(p), Enter(p)] && steps[1..][1..] == [Enter(p)] && steps[1..][1..][1..] == [];
    assert Run(l, w2, [Enter(p)]) == w3;
    assert Run(l, w1, [Peek(p), Enter(p)]) == w3;
    assert w.runs[i := w.runs[i]] == w.runs;
    assert w1.work == w.work[p := w1.work[p]] && w1.runs == w.runs;
    assert w2.work == w.work[p := w2.work[p]] && w2.runs == w.runs;
    assert w3.work == w.work[p := w3.work[p]];
  }
}
