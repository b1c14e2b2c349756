/** What holds of tickets and their runs over every interleaving of deliveries: how many runs a ticket has, and what
    becomes of a run that a crash left behind. */
module Tickets {
  import opened Models
  import opened Intake

  function TicketRuns(runs: seq<RunRow>, ticket: string): nat { RunsOf(runs, ticket, true) + RunsOf(runs, ticket, false) }

  /** One ticket, one run. Over every interleaving and crash of jobs and API calls, deliveries start at most one run per
      ticket, and each inbound message of the email surface adds one, because that path takes no lock. */
  lemma OneTicketOneRun(l: Locks, steps: seq<Step>, ticket: string)
    ensures var runs := Run(l, EMPTY, steps).runs;
            && RunsOf(runs, ticket, true) <= 1
            && TicketRuns(runs, ticket) == RunsOf(runs, ticket, true) + Emails(steps, ticket)
  {
    RunKeeps(l, EMPTY, steps);
    AtMostOneLocked(Run(l, EMPTY, steps).runs, ticket);
    UnlockedAreEmails(l, EMPTY, steps, ticket);
  }

  /** Every schedule with m inbound messages about the ticket leaves it with at most one run. */
  ghost predicate KeepsOneRun(l: Locks, ticket: string, m: nat) {
    forall steps :: Emails(steps, ticket) == m ==> TicketRuns(Run(l, EMPTY, steps).runs, ticket) <= 1
  }

  /** The rule holds exactly for tickets without inbound messages: with m of them some schedule leaves m + 1 runs. */
  lemma OneRunExactly(l: Locks, ticket: string, m: nat)
    ensures KeepsOneRun(l, ticket, m) <==> m == 0
  {
    hide Run;
    if m == 0 {
      forall steps | Emails(steps, ticket) == m ensures TicketRuns(Run(l, EMPTY, steps).runs, ticket) <= 1 {
        OneTicketOneRun(l, steps, ticket);
      }
    } else {
      EmailsAddRuns(l, ticket, m);
      var steps := Handled(ticket) + Messages(ticket, m);
      assert TicketRuns(Run(l, EMPTY, steps).runs, ticket) == m + 1;
    }
  }

  /** A delivery of a ticket, from its arrival to its end. */
  function Handled(ticket: string): seq<Step> { Started(ticket, true) + [Leave(0)] }

  /** The delivery has looked the ticket up and started its run. */
  function Started(ticket: string, job: bool): seq<Step> {
    [Deliver(ticket, Freshservice, job), LockTicket(0), Lookup(0), StartRun(0)]
  }

  /** The first delivery of a ticket, in a phase and with the ticket's lock or without. */
  function DeliveryIn(ticket: string, job: bool, phase: Phase, locks: set<int>): map<nat, Delivery> {
    map[0 := Delivery(if job then TicketJob else TicketApi, Some(ticket), Freshservice, phase, locks, phase.Calling?)]
  }

  function FirstRun(ticket: string): seq<RunRow> { [RunRow(Freshservice, Some(ticket), RunStatus.Running, true)] }

  function StartedWorld(l: Locks, ticket: string, job: bool): World {
    var k := l.ticket(ticket);
    World(FirstRun(ticket), map[k := 0], DeliveryIn(ticket, job, Calling(0, false), {k}), 1, {})
  }

  lemma StartsOne(l: Locks, ticket: string, job: bool)
    ensures Run(l, EMPTY, Started(ticket, job)) == StartedWorld(l, ticket, job)
  {
    var k, s := l.ticket(ticket), Started(ticket, job);
    var w1 := World([], map[], DeliveryIn(ticket, job, WaitTicket, {}), 1, {});
    var w2 := World([], map[k := 0], DeliveryIn(ticket, job, HaveTicket, {k}), 1, {});
    var w3 := World([], map[k := 0], DeliveryIn(ticket, job, SawNone, {k}), 1, {});
    assert Do(l, EMPTY, s[0]) == w1;
    assert w1.work[0].locks + {k} == {k};
    assert Do(l, w1, s[1]) == w2;
    assert Do(l, w2, s[2]) == w3;
    assert Do(l, w3, s[3]) == StartedWorld(l, ticket, job);
    Traced(l, [EMPTY, w1, w2, w3, StartedWorld(l, ticket, job)], s);
  }

  function Messages(ticket: string, m: nat): seq<Step> {
    if m == 0 then [] else [InboundEmail(ticket)] + Messages(ticket, m - 1)
  }

  /** A schedule followed world by world. */
  lemma {:induction false} Traced(l: Locks, ws: seq<World>, s: seq<Step>)
    requires |ws| == |s| + 1 && forall i :: 0 <= i < |s| ==> ws[i + 1] == Do(l, ws[i], s[i])
    ensures Run(l, ws[0], s) == ws[|s|]
    decreases |s|
  {
    hide Do;
    if s != [] {
      Traced(l, ws[1..], s[1..]);
      assert forall i :: 0 <= i < |ws[1..]| ==> ws[1..][i] == ws[i + 1];
    }
  }

  lemma {:induction false} RunConcat(l: Locks, w: World, a: seq<Step>, b: seq<Step>, ticket: string)
    ensures Run(l, w, a + b) == Run(l, Run(l, w, a), b)
    ensures Emails(a + b, ticket) == Emails(a, ticket) + Emails(b, ticket)
    decreases |a|
  {
    hide Do;
    if a == [] {
      assert a + b == b;
    } else {
      assert (a + b)[0] == a[0] && (a + b)[1..] == a[1..] + b;
      RunConcat(l, Do(l, w, a[0]), a[1..], b, ticket);
    }
  }

  function FirstDelivery(ticket: string): World { World(FirstRun(ticket), map[], map[], 1, {}) }

  lemma OneRunIsOne(ticket: string)
    ensures RunsOf(FirstRun(ticket), ticket, true) == 1 && RunsOf(FirstRun(ticket), ticket, false) == 0
  {
    assert FirstRun(ticket)[..0] == [];
  }

  lemma DeliveryStartsOne(l: Locks, ticket: string)
    ensures Run(l, EMPTY, Handled(ticket)) == FirstDelivery(ticket) && Emails(Handled(ticket), ticket) == 0
  {
    StartsOne(l, ticket, true);
    var w := StartedWorld(l, ticket, true);
    assert Do(l, w, Leave(0)) == FirstDelivery(ticket) by { assert w.work - {0} == map[]; }
    Traced(l, [w, FirstDelivery(ticket)], [Leave(0)]);
    RunConcat(l, EMPTY, Started(ticket, true), [Leave(0)], ticket);
    NoMessages(Handled(ticket), ticket);
  }

  lemma {:induction false} MessagesAdd(l: Locks, w: World, ticket: string, m: nat)
    ensures Emails(Messages(ticket, m), ticket) == m
    ensures RunsOf(Run(l, w, Messages(ticket, m)).runs, ticket, true) == RunsOf(w.runs, ticket, true)
    decreases m
  {
    if m > 0 {
      var v := Do(l, w, InboundEmail(ticket));
      assert v.runs[..|w.runs|] == w.runs;
      assert Messages(ticket, m)[1..] == Messages(ticket, m - 1);
      MessagesAdd(l, v, ticket, m - 1);
    }
  }

  /** The email surface's path breaks the rule: m messages that arrive after the ticket's run add m more. */
  lemma EmailsAddRuns(l: Locks, ticket: string, m: nat)
    ensures var steps := Handled(ticket) + Messages(ticket, m);
            && Emails(steps, ticket) == m
            && RunsOf(Run(l, EMPTY, steps).runs, ticket, true) == 1
            && RunsOf(Run(l, EMPTY, steps).runs, ticket, false) == m
  {
    hide Run, RunsOf, Do;
    DeliveryStartsOne(l, ticket);
    OneRunIsOne(ticket);
    var w := FirstDelivery(ticket);
    RunConcat(l, EMPTY, Handled(ticket), Messages(ticket, m), ticket);
    MessagesAdd(l, w, ticket, m);
    UnlockedAreEmails(l, w, Messages(ticket, m), ticket);
  }

  // --- a run that a crash left behind ---------------------------------------------------------------------------

  lemma {:induction false} NoneUnlocked(runs: seq<RunRow>, ticket: string, i: nat)
    requires RunsOf(runs, ticket, false) == 0 && i < |runs| && TicketRun(runs[i], ticket)
    ensures runs[i].locked
    decreases |runs|
  {
    if i < |runs| - 1 {
      NoneUnlocked(runs[..|runs| - 1], ticket, i);
    }
  }

  /** Without inbound messages two runs of one ticket are one run. */
  lemma TicketsRunIsUnique(l: Locks, steps: seq<Step>, ticket: string, i: nat, j: nat)
    requires Emails(steps, ticket) == 0
    requires var runs := Run(l, EMPTY, steps).runs;
             i < |runs| && j < |runs| && TicketRun(runs[i], ticket) && TicketRun(runs[j], ticket)
    ensures i == j
  {
    hide Run, RunsOf;
    RunKeeps(l, EMPTY, steps);
    UnlockedAreEmails(l, EMPTY, steps, ticket);
    NoRuns(ticket);
    var runs := Run(l, EMPTY, steps).runs;
    NoneUnlocked(runs, ticket, i);
    NoneUnlocked(runs, ticket, j);
    assert RunsOk(runs);
  }

  lemma NoRuns(ticket: string)
    ensures RunsOf(EMPTY.runs, ticket, false) == 0
  {
  }

  lemma RunStays(l: Locks, w: World, s: Step, ticket: string, i: nat)
    requires i < |w.runs| && TicketRun(w.runs[i], ticket)
    ensures i < |Do(l, w, s).runs| && TicketRun(Do(l, w, s).runs[i], ticket)
  {
    hide FindTicketRun, RunTransitions, After;
  }

  lemma {:induction false} RunsStay(l: Locks, w: World, steps: seq<Step>, ticket: string, i: nat)
    requires i < |w.runs| && TicketRun(w.runs[i], ticket)
    ensures i < |Run(l, w, steps).runs| && TicketRun(Run(l, w, steps).runs[i], ticket)
    decreases |steps|
  {
    hide Do, TicketRun;
    if steps != [] {
      RunStays(l, w, steps[0], ticket, i);
      RunsStay(l, Do(l, w, steps[0]), steps[1..], ticket, i);
    }
  }

  /** The next job for a ticket, from its arrival to its work on the run it finds. */
  function NextJob(ticket: string, s: Source, p: nat): seq<Step> {
    [Deliver(ticket, s, true), LockTicket(p), Lookup(p), LockRun(p), Check(p, true), Peek(p)]
  }

  /** Delivery p is in this phase with these locks; the runs are as they were. */
  ghost predicate Reached(w: World, v: World, p: nat, d: Delivery, locks: map<int, nat>) {
    p in v.work && v.work[p] == d && v.runs == w.runs && v.locks == locks
  }

  lemma FoundAndLocked(l: Locks, w: World, ticket: string, s: Source, i: nat)
    requires IsTicketChannel(s) && FindTicketRun(w.runs, ticket) == Some(i) && w.runs[i].status == RunStatus.Running
    requires l.ticket(ticket) !in w.locks && l.run(i) !in w.locks && l.ticket(ticket) != l.run(i)
    ensures var v := Run(l, w, NextJob(ticket, s, w.next));
            w.next in v.work && v.work[w.next].phase == Working(i) && v.runs == w.runs
  {
    hide FindTicketRun, Do;
    var p, steps := w.next, NextJob(ticket, s, w.next);
    var k, r := l.ticket(ticket), l.run(i);
    var d := Delivery(TicketJob, Some(ticket), s, WaitTicket, {}, false);
    var w1 := Do(l, w, steps[0]);
    var w2 := Do(l, w1, steps[1]);
    var w3 := Do(l, w2, steps[2]);
    var w4 := Do(l, w3, steps[3]);
    var w5 := Do(l, w4, steps[4]);
    var w6 := Do(l, w5, steps[5]);
    assert Reached(w, w1, p, d, w.locks) by { Delivers(l, w, ticket, s); }
    TakesTicket(l, w, w1, p, d, w.locks);
    LooksUp(l, w, w2, p, d.(phase := HaveTicket, locks := {k}), w.locks[k := p], i);
    TakesRun(l, w, w3, p, d.(phase := WaitRun(i), locks := {k}), w.locks[k := p]);
    TurnsTo(l, w, w4, p, d.(phase := Holding(i), locks := {k} + {r}), w.locks[k := p][r := p], steps[4], Calling(i, false));
    TurnsTo(l, w, w5, p, d.(phase := Calling(i, false), locks := {k} + {r}), w.locks[k := p][r := p], steps[5], Working(i));
    Traced(l, [w, w1, w2, w3, w4, w5, w6], steps);
  }

  lemma Delivers(l: Locks, w: World, ticket: string, s: Source)
    requires IsTicketChannel(s)
    ensures Reached(w, Do(l, w, Deliver(ticket, s, true)), w.next, Delivery(TicketJob, Some(ticket), s, WaitTicket, {}, false), w.locks)
  {
  }

  lemma TakesTicket(l: Locks, w: World, u: World, p: nat, d: Delivery, locks: map<int, nat>)
    requires Reached(w, u, p, d, locks) && d.phase.WaitTicket? && d.ticket.Some? && d.locks == {}
    requires l.ticket(d.ticket.value) !in locks
    ensures var k := l.ticket(d.ticket.value);
            Reached(w, Do(l, u, LockTicket(p)), p, d.(phase := HaveTicket, locks := {k}), locks[k := p])
  {
    assert d.locks + {l.ticket(d.ticket.value)} == {l.ticket(d.ticket.value)};
  }

  lemma LooksUp(l: Locks, w: World, u: World, p: nat, d: Delivery, locks: map<int, nat>, i: nat)
    requires Reached(w, u, p, d, locks) && d.phase.HaveTicket? && d.ticket.Some? && d.caller == TicketJob
    requires FindTicketRun(w.runs, d.ticket.value) == Some(i) && w.runs[i].status == RunStatus.Running
    ensures Reached(w, Do(l, u, Lookup(p)), p, d.(phase := WaitRun(i)), locks)
  {
    hide FindTicketRun;
  }

  lemma TakesRun(l: Locks, w: World, u: World, p: nat, d: Delivery, locks: map<int, nat>)
    requires Reached(w, u, p, d, locks) && d.phase.WaitRun? && l.run(d.phase.i) !in locks
    ensures var r := l.run(d.phase.i);
            Reached(w, Do(l, u, LockRun(p)), p, d.(phase := Holding(d.phase.i), locks := d.locks + {r}), locks[r := p])
  {
  }

  /** The status of a running run, read by a job under the run's lock or by the runner. */
  lemma TurnsTo(l: Locks, w: World, u: World, p: nat, d: Delivery, locks: map<int, nat>, s: Step, to: Phase)
    requires Reached(w, u, p, d, locks) && OnRun(d.phase) && d.phase.i < |w.runs| && d.caller != WebPick
    requires w.runs[d.phase.i].status == RunStatus.Running
    requires (s == Check(p, true) && d.phase.Holding? && to == Calling(d.phase.i, false)) ||
             (s == Peek(p) && d.phase == Calling(d.phase.i, false) && to == Working(d.phase.i))
    ensures Reached(w, Do(l, u, s), p, d.(phase := to), locks)
  {
    var i := d.phase.i;
    assert w.runs[i := w.runs[i].(status := RunStatus.Running)] == w.runs;
  }

  /** A crashed job is continued and not duplicated. Whatever happened before, short of an inbound message: if a run of
      the ticket stands in `running` and its two locks are free, the next job for the ticket comes to work on that run
      and starts nothing; and however things go on from there, that run stays the only one the ticket has. */
  lemma CrashedRunIsContinued(l: Locks, steps: seq<Step>, ticket: string, s: Source, i: nat, more: seq<Step>, j: nat)
    requires Emails(steps, ticket) == 0 && Emails(more, ticket) == 0 && IsTicketChannel(s)
    requires var w := Run(l, EMPTY, steps);
             && i < |w.runs| && TicketRun(w.runs[i], ticket) && w.runs[i].status == RunStatus.Running
             && l.ticket(ticket) !in w.locks && l.run(i) !in w.locks && l.ticket(ticket) != l.run(i)
    ensures var w := Run(l, EMPTY, steps);
            var v := Run(l, w, NextJob(ticket, s, w.next));
            var x := Run(l, v, more);
            && w.next in v.work && v.work[w.next].phase == Working(i) && v.runs == w.runs
            && i < |x.runs| && TicketRun(x.runs[i], ticket)
            && (j < |x.runs| && TicketRun(x.runs[j], ticket) ==> j == i)
  {
    hide Run, FindTicketRun, TicketRun;
    var w := Run(l, EMPTY, steps);
    var found := FindTicketRun(w.runs, ticket);
    TicketsRunIsUnique(l, steps, ticket, i, found.value);
    FoundAndLocked(l, w, ticket, s, i);
    var job := NextJob(ticket, s, w.next);
    var v := Run(l, w, job);
    RunsStay(l, v, more, ticket, i);
    RunConcat(l, EMPTY, steps, job, ticket);
    RunConcat(l, EMPTY, steps + job, more, ticket);
    assert Emails(job, ticket) == 0 by { NoMessages(job, ticket); }
    if j < |Run(l, v, more).runs| && TicketRun(Run(l, v, more).runs[j], ticket) {
      TicketsRunIsUnique(l, steps + job + more, ticket, i, j);
    }
  }

  lemma {:induction false} NoMessages(steps: seq<Step>, ticket: string)
    requires forall i :: 0 <= i < |steps| ==> !steps[i].InboundEmail?
    ensures Emails(steps, ticket) == 0
  {
    if steps != [] {
      NoMessages(steps[1..], ticket);
    }
  }
}
