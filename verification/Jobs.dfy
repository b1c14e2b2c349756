/** The job queue: leases, attempts and settling, with any number of workers that may crash or be late. */
module Jobs {
  import opened Models

  /** A jobs row. `claims` and `returned` are history: how often it was claimed and how often a handler returned. */
  datatype Job = Job(kind: string, dedupe: Option<string>, attempts: nat, maxAttempts: int, runAt: int,
                     lockedUntil: Option<int>, done: bool, claims: nat, returned: nat)

  function Power2(n: nat): nat { if n == 0 then 1 else 2 * Power2(n - 1) }

  function Least(a: int, b: int): int { if a <= b then a else b }

  /** Seconds until a job that failed for the given time may be claimed again. */
  function RetryDelay(attempt: nat): int
    requires attempt >= 1
  {
    Least(600, 5 * Power2(Least(attempt - 1, 20)))
  }

  lemma {:induction false} PowerGrows(m: nat, n: nat)
    requires m <= n
    ensures Power2(m) <= Power2(n)
  {
    if m < n {
      PowerGrows(m, n - 1);
    }
  }

  /** Each delay is twice the one before it, up to ten minutes. */
  lemma DelaysDouble(attempt: nat)
    requires attempt >= 1
    ensures RetryDelay(1) == 5
    ensures RetryDelay(attempt + 1) == Least(600, 2 * RetryDelay(attempt))
  {
    if attempt - 1 >= 20 {
      PowerGrows(7, 20);
      assert Power2(7) == 128 by { assert Power2(4) == 16; }
    }
  }

  datatype HandlerResult = Returned | Permanent | Raised     // a timeout is a raise

  predicate Ready(j: Job, now: int) {
    !j.done && j.runAt <= now && (j.lockedUntil.None? || j.lockedUntil.value < now) && j.attempts < j.maxAttempts
  }

  function Claimed(j: Job, now: int, lease: int): Job {
    j.(lockedUntil := Some(now + lease), attempts := j.attempts + 1, claims := j.claims + 1)
  }

  /** What a worker writes about a job it ran. `attempts` and `maxAttempts` are those of the row it claimed. */
  function SettledJob(j: Job, r: HandlerResult, attempts: nat, maxAttempts: int, now: int): Job
    requires attempts >= 1
  {
    match r
    case Returned => j.(done := true, lockedUntil := None)
    case Permanent => j.(attempts := if j.attempts >= j.maxAttempts then j.attempts else j.maxAttempts, lockedUntil := None)
    case Raised => j.(lockedUntil := None, runAt := now + if attempts >= maxAttempts then 0 else RetryDelay(attempts))
  }

  // --- concurrent workers ---------------------------------------------------------------------------------------

  datatype Phase = Handling | Settling(result: HandlerResult)

  /** A worker between its claim and its settle. */
  datatype InFlight = InFlight(job: nat, attempts: nat, maxAttempts: int, claimedAt: int, phase: Phase)

  datatype World = World(now: int, jobs: seq<Job>, runs: map<nat, InFlight>, next: nat)

  datatype Step =
    | Wait(d: nat)
    | EnqueueJob(kind: string, runAt: Option<int>, dedupe: Option<string>, maxAttempts: int)
    | Claim(j: nat)
    | Finish(r: nat, result: HandlerResult)
    | Settle(r: nat)
    | CrashWorker(r: nat)

  function Do(lease: nat, w: World, s: Step): World {
    match s
    case Wait(d) => w.(now := w.now + d)
    case EnqueueJob(kind, runAt, dedupe, maxAttempts) =>
      if dedupe.Some? && exists i :: 0 <= i < |w.jobs| && w.jobs[i].dedupe == dedupe then w
      else w.(jobs := w.jobs + [Job(kind, dedupe, 0, maxAttempts, runAt.GetOr(w.now), None, false, 0, 0)])
    case Claim(j) =>
      if j >= |w.jobs| || !Ready(w.jobs[j], w.now) then w
      else
        var job := Claimed(w.jobs[j], w.now, lease);
        w.(jobs := w.jobs[j := job],
           runs := w.runs[w.next := InFlight(j, job.attempts, job.maxAttempts, w.now, Handling)], next := w.next + 1)
    case Finish(r, result) =>
      if r !in w.runs || !w.runs[r].phase.Handling? || w.runs[r].job >= |w.jobs| then w
      else
        var j := w.runs[r].job;
        w.(runs := w.runs[r := w.runs[r].(phase := Settling(result))],
           jobs := if result.Returned? then w.jobs[j := w.jobs[j].(returned := w.jobs[j].returned + 1)] else w.jobs)
    case Settle(r) =>
      if r !in w.runs || !w.runs[r].phase.Settling? || w.runs[r].job >= |w.jobs| || w.runs[r].attempts == 0 then w
      else
        var x := w.runs[r];
        w.(runs := w.runs - {r},
           jobs := w.jobs[x.job := SettledJob(w.jobs[x.job], x.phase.result, x.attempts, x.maxAttempts, w.now)])
    case CrashWorker(r) => w.(runs := w.runs - {r})
  }

  function Run(lease: nat, w: World, steps: seq<Step>): World
    decreases |steps|
  {
    if steps == [] then w else Run(lease, Do(lease, w, steps[0]), steps[1..])
  }

  function Empty(now: int): World { World(now, [], map[], 0) }

  /** When a settled job may be claimed again: never once it is done, failed for good, or out of attempts; otherwise from the
      moment its retry delay is over. The worker's hold on it ends in every case. */
  lemma SettledMayBeClaimed(lease: nat, w: World, r: nat, t: int)
    requires r in w.runs && w.runs[r].phase.Settling? && w.runs[r].job < |w.jobs| && w.runs[r].attempts >= 1
    ensures var x, v := w.runs[r], Do(lease, w, Settle(r));
            var before, after := w.jobs[x.job], v.jobs[x.job];
            && v == w.(runs := w.runs - {r}, jobs := w.jobs[x.job := after])
            && after.lockedUntil == None && after.kind == before.kind && after.dedupe == before.dedupe
            && after.maxAttempts == before.maxAttempts && after.claims == before.claims
            && (x.phase.result == Returned ==> after.done && after.attempts == before.attempts)
            && (x.phase.result != Returned ==> after.done == before.done)
            && (x.phase.result == Permanent ==> after.attempts >= before.attempts)
            && (x.phase.result == Raised ==> after.attempts == before.attempts)
            && (Ready(after, t) <==>
                  && x.phase.result == Raised && !before.done && before.attempts < before.maxAttempts
                  && t >= w.now + if x.attempts < x.maxAttempts then RetryDelay(x.attempts) else 0)
  {
    hide RetryDelay;
  }

  /** A job is added unless its deduplication key was ever used; it is then ready from its time on, or at once. */
  lemma EnqueuedOnce(lease: nat, w: World, kind: string, runAt: Option<int>, dedupe: Option<string>, maxAttempts: int, t: int)
    ensures var v := Do(lease, w, EnqueueJob(kind, runAt, dedupe, maxAttempts));
            if exists j :: j in w.jobs && j.dedupe.Some? && j.dedupe == dedupe then v == w
            else
              && |v.jobs| == |w.jobs| + 1 && v == w.(jobs := w.jobs + [v.jobs[|w.jobs|]])
              && var j := v.jobs[|w.jobs|];
                 && j.kind == kind && j.dedupe == dedupe && j.maxAttempts == maxAttempts
                 && j.attempts == j.claims == j.returned == 0
                 && (Ready(j, t) <==> maxAttempts > 0 && t >= if runAt.Some? then runAt.value else w.now)
  {
    if exists j :: j in w.jobs && j.dedupe.Some? && j.dedupe == dedupe {
      var j :| j in w.jobs && j.dedupe.Some? && j.dedupe == dedupe;
      var i :| 0 <= i < |w.jobs| && w.jobs[i] == j;
      assert w.jobs[i].dedupe == dedupe;
    }
  }

  // --- with no assumption on time -------------------------------------------------------------------------------

  ghost predicate JobOk(j: Job) {
    && j.claims <= j.attempts
    && (j.attempts == 0 || j.attempts <= j.maxAttempts)
    && (j.done ==> j.returned >= 1)
  }

  ghost predicate RunOk(w: World, r: nat) {
    r in w.runs ==>
      var x := w.runs[r];
      && r < w.next && x.job < |w.jobs| && x.attempts >= 1 && w.jobs[x.job].attempts >= 1
      && (x.phase == Settling(Returned) ==> w.jobs[x.job].returned >= 1)
  }

  ghost predicate KeysApart(jobs: seq<Job>) {
    forall i, k :: 0 <= i < k < |jobs| && jobs[i].dedupe.Some? ==> jobs[i].dedupe != jobs[k].dedupe
  }

  ghost predicate Inv(w: World) {
    && (forall i :: 0 <= i < |w.jobs| ==> JobOk(w.jobs[i]))
    && (forall r :: RunOk(w, r))
    && KeysApart(w.jobs)
  }

  /** A step touches at most one job, and what it does to it is harmless. */
  ghost predicate JobMoves(j: Job, k: Job) {
    && k.dedupe == j.dedupe && k.attempts >= j.attempts && k.returned >= j.returned
    && (JobOk(j) ==> JobOk(k))
    && (j.done ==> k.done && k.claims == j.claims)
  }

  lemma JobsMove(lease: nat, w: World, s: Step, i: nat)
    requires Inv(w) && i < |w.jobs|
    ensures |w.jobs| <= |Do(lease, w, s).jobs| && JobMoves(w.jobs[i], Do(lease, w, s).jobs[i])
  {
    hide RetryDelay;
    assert JobOk(w.jobs[i]);
    if s.Settle? {
      assert RunOk(w, s.r);
    }
  }

  lemma StepKeeps(lease: nat, w: World, s: Step)
    requires Inv(w)
    ensures Inv(Do(lease, w, s)) && |w.jobs| <= |Do(lease, w, s).jobs|
    ensures forall i :: 0 <= i < |w.jobs| ==> JobMoves(w.jobs[i], Do(lease, w, s).jobs[i])
  {
    hide RetryDelay, JobOk, SettledJob, Ready;
    var v := Do(lease, w, s);
    forall i | 0 <= i < |w.jobs| ensures |w.jobs| <= |v.jobs| && JobMoves(w.jobs[i], v.jobs[i]) && JobOk(v.jobs[i]) {
      JobsMove(lease, w, s, i);
    }
    forall i | |w.jobs| <= i < |v.jobs| ensures JobOk(v.jobs[i]) {
      NewJob(lease, w, s, i);
    }
    forall r ensures RunOk(v, r) {
      assert RunOk(w, r);
      if s.Claim? && r in v.runs && r !in w.runs {
        assert r == w.next;
      }
    }
    KeysStayApart(lease, w, s);
  }

  lemma NewJob(lease: nat, w: World, s: Step, i: nat)
    requires |w.jobs| <= i < |Do(lease, w, s).jobs|
    ensures JobOk(Do(lease, w, s).jobs[i])
  {
  }

  lemma KeysStayApart(lease: nat, w: World, s: Step)
    requires Inv(w)
    ensures KeysApart(Do(lease, w, s).jobs)
  {
    hide RetryDelay, JobOk, Ready;
    var v := Do(lease, w, s);
    forall i | 0 <= i < |w.jobs| ensures v.jobs[i].dedupe == w.jobs[i].dedupe {
      JobsMove(lease, w, s, i);
    }
  }

  lemma {:induction false} RunKeeps(lease: nat, w: World, steps: seq<Step>)
    requires Inv(w)
    ensures Inv(Run(lease, w, steps))
    ensures |w.jobs| <= |Run(lease, w, steps).jobs|
    ensures forall i :: 0 <= i < |w.jobs| && w.jobs[i].done ==>
              Run(lease, w, steps).jobs[i].done && Run(lease, w, steps).jobs[i].claims == w.jobs[i].claims
    decreases |steps|
  {
    hide Inv, Do, JobOk;
    if steps != [] {
      StepKeeps(lease, w, steps[0]);
      RunKeeps(lease, Do(lease, w, steps[0]), steps[1..]);
    }
  }

  /** Whatever crashes and however late anyone is: a job is claimed at most max_attempts times, it is done only after a
      handler returned, and no two jobs share a dedupe key. */
  lemma AttemptsAreBounded(lease: nat, now: int, steps: seq<Step>)
    ensures var jobs := Run(lease, Empty(now), steps).jobs;
            && (forall i :: 0 <= i < |jobs| ==> jobs[i].claims == 0 || jobs[i].claims <= jobs[i].maxAttempts)
            && (forall i :: 0 <= i < |jobs| && jobs[i].done ==> jobs[i].returned >= 1)
            && (forall i, k :: 0 <= i < k < |jobs| && jobs[i].dedupe.Some? ==> jobs[i].dedupe != jobs[k].dedupe)
  {
    RunKeeps(lease, Empty(now), steps);
    var w := Run(lease, Empty(now), steps);
    assert forall i :: 0 <= i < |w.jobs| ==> JobOk(w.jobs[i]);
  }

  /** A done job stays done and is never claimed again. */
  lemma DoneIsFinal(lease: nat, now: int, before: seq<Step>, after: seq<Step>, i: nat)
    requires var w := Run(lease, Empty(now), before); i < |w.jobs| && w.jobs[i].done
    ensures var w := Run(lease, Empty(now), before);
            var v := Run(lease, w, after);
            i < |v.jobs| && v.jobs[i].done && v.jobs[i].claims == w.jobs[i].claims
  {
    RunKeeps(lease, Empty(now), before);
    RunKeeps(lease, Run(lease, Empty(now), before), after);
  }

  // --- mutual exclusion -----------------------------------------------------------------------------------------

  /** Nobody who claimed a job is still at work on it, settling included, more than d seconds later. */
  ghost predicate Timely(d: nat, w: World) {
    forall r :: r in w.runs ==> w.now <= w.runs[r].claimedAt + d
  }

  ghost predicate TimelyRun(lease: nat, d: nat, w: World, steps: seq<Step>)
    decreases |steps|
  {
    Timely(d, w) && (steps != [] ==> TimelyRun(lease, d, Do(lease, w, steps[0]), steps[1..]))
  }

  ghost predicate OneWorkerEach(w: World) {
    forall r, q :: r in w.runs && q in w.runs && r != q ==> w.runs[r].job != w.runs[q].job
  }

  /** A live run owns its job's lease. */
  ghost predicate Leased(lease: nat, w: World) {
    && OneWorkerEach(w)
    && forall r :: r in w.runs ==>
         && r < w.next && w.runs[r].job < |w.jobs|
         && w.jobs[w.runs[r].job].lockedUntil == Some(w.runs[r].claimedAt + lease)
  }

  lemma LeaseKeeps(lease: nat, w: World, s: Step)
    requires Leased(lease, w) && Timely(lease, w)
    ensures Leased(lease, Do(lease, w, s))
  {
    hide RetryDelay;
  }

  lemma {:induction false} LeasesKeep(lease: nat, d: nat, w: World, steps: seq<Step>)
    requires Leased(lease, w) && TimelyRun(lease, d, w, steps) && d <= lease
    ensures Leased(lease, Run(lease, w, steps))
    decreases |steps|
  {
    hide Leased, Do;
    if steps != [] {
      LeaseKeeps(lease, w, steps[0]);
      LeasesKeep(lease, d, Do(lease, w, steps[0]), steps[1..]);
    }
  }

  /** If claim, handler and settle together fit inside the lease, no job is ever run by two workers at once. */
  lemma OneWorkerPerJob(lease: nat, d: nat, now: int, steps: seq<Step>)
    requires TimelyRun(lease, d, Empty(now), steps) && d <= lease
    ensures OneWorkerEach(Run(lease, Empty(now), steps))
  {
    LeasesKeep(lease, d, Empty(now), steps);
  }

  /** Every schedule in which nobody takes longer than d from claim to settle keeps one worker per job. */
  ghost predicate KeepsOneWorker(lease: nat, d: nat) {
    forall now, steps :: TimelyRun(lease, d, Empty(now), steps) ==> OneWorkerEach(Run(lease, Empty(now), steps))
  }

  /** The bound that is enough: claim, handler and settle together within the lease, and nothing less. */
  lemma LeaseIsEnoughExactly(lease: nat, d: nat)
    ensures KeepsOneWorker(lease, d) <==> d <= lease
  {
    if d <= lease {
      forall now, steps | TimelyRun(lease, d, Empty(now), steps) ensures OneWorkerEach(Run(lease, Empty(now), steps)) {
        OneWorkerPerJob(lease, d, now, steps);
      }
    } else {
      SlowWorker(lease, d);
      assert !OneWorkerEach(Run(lease, Empty(0), Slow(lease)));
    }
  }

  /** A worker outlives its lease by a second, and another one takes the job. */
  function Slow(lease: nat): seq<Step> {
    [EnqueueJob("rail.run", None, None, 2), Claim(0), Wait(lease + 1), Claim(0)]
  }

  lemma SlowWorker(lease: nat, d: nat)
    requires d > lease
    ensures TimelyRun(lease, d, Empty(0), Slow(lease)) && PromptRun(lease, d, Empty(0), Slow(lease))
    ensures var v := Run(lease, Empty(0), Slow(lease));
            && 0 in v.runs && 1 in v.runs && v.runs[0].job == v.runs[1].job
            && v.runs[0].phase.Handling? && v.runs[1].phase.Handling?
  {
    var s := Slow(lease);
    var w0 := Empty(0);
    var w1 := Do(lease, w0, s[0]);
    var w2 := Do(lease, w1, s[1]);
    assert w2.runs[0] == InFlight(0, 1, 2, 0, Handling) && w2.jobs[0].lockedUntil == Some(lease);
    var w3 := Do(lease, w2, s[2]);
    var w4 := Do(lease, w3, s[3]);
    assert w4.runs[1].job == 0 && w4.runs[1].claimedAt == lease + 1;
    Traced(lease, d, [w0, w1, w2, w3, w4], s);
  }

  /** A schedule followed world by world. */
  lemma {:induction false} Traced(lease: nat, d: nat, ws: seq<World>, s: seq<Step>)
    requires |ws| == |s| + 1 && forall i :: 0 <= i < |s| ==> ws[i + 1] == Do(lease, ws[i], s[i])
    ensures Run(lease, ws[0], s) == ws[|s|]
    ensures (forall i :: 0 <= i < |ws| ==> Timely(d, ws[i])) ==> TimelyRun(lease, d, ws[0], s)
    ensures (forall i :: 0 <= i < |ws| ==> Prompt(d, ws[i])) ==> PromptRun(lease, d, ws[0], s)
    decreases |s|
  {
    hide Do, Timely, Prompt;
    if s != [] {
      Traced(lease, d, ws[1..], s[1..]);
      assert forall i :: 0 <= i < |ws[1..]| ==> ws[1..][i] == ws[i + 1];
    } else {
      assert ws[0] == ws[|s|];
    }
  }

  // --- what a handler's timeout alone gives ---------------------------------------------------------------------

  /** No handler runs for more than t seconds; how long a settle then takes is not bounded. */
  ghost predicate Prompt(t: nat, w: World) {
    forall r :: r in w.runs && w.runs[r].phase.Handling? ==> w.now <= w.runs[r].claimedAt + t
  }

  ghost predicate PromptRun(lease: nat, t: nat, w: World, steps: seq<Step>)
    decreases |steps|
  {
    Prompt(t, w) && (steps != [] ==> PromptRun(lease, t, Do(lease, w, steps[0]), steps[1..]))
  }

  /** No two handlers work on one job at once. */
  ghost predicate OneHandlerEach(w: World) {
    forall r, q :: r in w.runs && q in w.runs && r != q && w.runs[r].phase.Handling? && w.runs[q].phase.Handling? ==>
      w.runs[r].job != w.runs[q].job
  }

  lemma DelayIsLong(attempt: nat)
    requires attempt >= 1
    ensures RetryDelay(attempt) >= 5
  {
    PowerGrows(0, Least(attempt - 1, 20));
  }

  /** The job of a run that a handler works on cannot be claimed for five seconds, whoever settles it meanwhile. */
  ghost predicate Guarded(lease: nat, w: World, r: nat) {
    r in w.runs ==>
      var x := w.runs[r];
      && r < w.next && x.job < |w.jobs| && 1 <= x.attempts <= w.jobs[x.job].attempts
      && x.maxAttempts == w.jobs[x.job].maxAttempts && x.claimedAt <= w.now
      && (x.phase.Handling? ==>
            var j := w.jobs[x.job];
            j.done || j.attempts >= j.maxAttempts || j.lockedUntil == Some(x.claimedAt + lease) || j.runAt >= x.claimedAt + 5)
  }

  ghost predicate AllGuarded(lease: nat, w: World) {
    OneHandlerEach(w) && forall r :: Guarded(lease, w, r)
  }

  lemma SettleGuards(lease: nat, w: World, r: nat)
    requires AllGuarded(lease, w)
    ensures AllGuarded(lease, Do(lease, w, Settle(r)))
  {
    hide RetryDelay;
    var v := Do(lease, w, Settle(r));
    if v != w {
      assert Guarded(lease, w, r);
      DelayIsLong(w.runs[r].attempts);
      forall q ensures Guarded(lease, v, q) { assert Guarded(lease, w, q); }
    }
  }

  lemma ClaimGuards(lease: nat, t: nat, w: World, j: nat)
    requires AllGuarded(lease, w) && Prompt(t, w) && t <= lease && t < 5
    ensures AllGuarded(lease, Do(lease, w, Claim(j)))
  {
    var v := Do(lease, w, Claim(j));
    if v != w {
      forall q | q in w.runs && w.runs[q].job == j ensures !w.runs[q].phase.Handling? {
        assert Guarded(lease, w, q);
      }
      forall q ensures Guarded(lease, v, q) { assert Guarded(lease, w, q); }
    }
  }

  lemma GuardsKeep(lease: nat, t: nat, w: World, s: Step)
    requires AllGuarded(lease, w) && Prompt(t, w) && t <= lease && t < 5
    ensures AllGuarded(lease, Do(lease, w, s))
  {
    hide RetryDelay, SettledJob, Ready, Claimed;
    if s.Settle? {
      SettleGuards(lease, w, s.r);
    } else if s.Claim? {
      ClaimGuards(lease, t, w, s.j);
    } else {
      var v := Do(lease, w, s);
      forall q ensures Guarded(lease, v, q) { assert Guarded(lease, w, q); }
    }
  }

  lemma {:induction false} OneHandlerPerJob(lease: nat, t: nat, w: World, steps: seq<Step>)
    requires AllGuarded(lease, w) && PromptRun(lease, t, w, steps) && t <= lease && t < 5
    ensures OneHandlerEach(Run(lease, w, steps))
    decreases |steps|
  {
    hide Do, Guarded, OneHandlerEach;
    if steps != [] {
      GuardsKeep(lease, t, w, steps[0]);
      OneHandlerPerJob(lease, t, Do(lease, w, steps[0]), steps[1..]);
    }
  }

  /** Every schedule in which handlers run for at most t seconds has one handler per job. */
  ghost predicate KeepsOneHandler(lease: nat, t: nat) {
    forall now, steps :: PromptRun(lease, t, Empty(now), steps) ==> OneHandlerEach(Run(lease, Empty(now), steps))
  }

  /** A timeout below the lease is not enough. What is enough is a timeout within the lease and below the shortest retry
      delay: a first worker that settles late clears the lease of the second, and five seconds later a third may claim
      the job. */
  lemma TimeoutIsEnoughExactly(lease: nat, t: nat)
    ensures KeepsOneHandler(lease, t) <==> t <= lease && t < 5
  {
    if t <= lease && t < 5 {
      forall now, steps | PromptRun(lease, t, Empty(now), steps) ensures OneHandlerEach(Run(lease, Empty(now), steps)) {
        OneHandlerPerJob(lease, t, Empty(now), steps);
      }
    } else if t > lease {
      SlowWorker(lease, t);
      assert !OneHandlerEach(Run(lease, Empty(0), Slow(lease)));
    } else {
      LateSettleBreaksIt(lease, t);
      assert !OneHandlerEach(Run(lease, Empty(0), Late(lease)));
    }
  }

  /** The first handler fails at once, but its worker settles only after a second worker claimed the job. */
  function Late(lease: nat): seq<Step> {
    [EnqueueJob("rail.run", None, None, 5), Claim(0), Finish(0, Raised), Wait(lease + 1), Claim(0), Settle(0), Wait(5),
     Claim(0)]
  }

  function LateJob(attempts: nat, runAt: int, lockedUntil: Option<int>): seq<Job> {
    [Job("rail.run", None, attempts, 5, runAt, lockedUntil, false, attempts, 0)]
  }

  function LateRun(attempts: nat, claimedAt: int, phase: Phase): InFlight { InFlight(0, attempts, 5, claimedAt, phase) }

  /** The worlds of that schedule; its second half starts at the sixth. */
  function LateWorlds(lease: nat): (seq<World>, seq<World>) {
    var first, second := LateRun(1, 0, Settling(Raised)), LateRun(2, lease + 1, Handling);
    var job := LateJob(1, 0, Some(lease));
    ([Empty(0), World(0, LateJob(0, 0, None), map[], 0), World(0, job, map[0 := LateRun(1, 0, Handling)], 1),
      World(0, job, map[0 := first], 1), World(lease + 1, job, map[0 := first], 1)],
     [World(lease + 1, LateJob(2, 0, Some(2 * lease + 1)), map[0 := first, 1 := second], 2),
      World(lease + 1, LateJob(2, lease + 6, None), map[1 := second], 2),
      World(lease + 6, LateJob(2, lease + 6, None), map[1 := second], 2),
      World(lease + 6, LateJob(3, lease + 6, Some(2 * lease + 6)),
            map[1 := second, 2 := LateRun(3, lease + 6, Handling)], 3)])
  }

  lemma LateStarts(lease: nat)
    ensures var ws, s := LateWorlds(lease).0, Late(lease);
            forall i :: 0 <= i < 4 ==> ws[i + 1] == Do(lease, ws[i], s[i])
    ensures Do(lease, LateWorlds(lease).0[4], Late(lease)[4]) == LateWorlds(lease).1[0]
  {
  }

  lemma LateEnds(lease: nat)
    ensures var ws, s := LateWorlds(lease).1, Late(lease);
            forall i :: 0 <= i < 3 ==> ws[i + 1] == Do(lease, ws[i], s[i + 5])
  {
    assert Power2(0) == 1;
    var ws := LateWorlds(lease).1;
    assert ws[0].runs - {0} == ws[1].runs;
  }

  lemma LateSettleBreaksIt(lease: nat, t: nat)
    requires t >= 5
    ensures PromptRun(lease, t, Empty(0), Late(lease))
    ensures !OneHandlerEach(Run(lease, Empty(0), Late(lease)))
  {
    hide Do;
    LateStarts(lease);
    LateEnds(lease);
    var ws := LateWorlds(lease).0 + LateWorlds(lease).1;
    Traced(lease, t, ws, Late(lease));
    assert ws[8].runs[1].job == ws[8].runs[2].job;
  }

  // --- one worker, draining -------------------------------------------------------------------------------------

  function Remaining(jobs: seq<Job>): nat {
    if jobs == [] then 0
    else
      var j := jobs[|jobs| - 1];
      Remaining(jobs[..|jobs| - 1]) + if j.attempts < j.maxAttempts then j.maxAttempts - j.attempts else 0
  }

  lemma {:induction false} RemainingFalls(jobs: seq<Job>, i: nat, j: Job)
    requires i < |jobs| && jobs[i].attempts < jobs[i].maxAttempts
    requires j.maxAttempts == jobs[i].maxAttempts && j.attempts > jobs[i].attempts
    ensures Remaining(jobs[i := j]) < Remaining(jobs)
    decreases |jobs|
  {
    var n := |jobs| - 1;
    if i < n {
      RemainingFalls(jobs[..n], i, j);
      assert jobs[i := j][..n] == jobs[..n][i := j];
    } else {
      assert jobs[i := j][..n] == jobs[..n];
    }
  }

  /** Job i is the one to claim: ready, of a kind that has a handler, earliest due, lowest id. */
  predicate IsNext(jobs: seq<Job>, now: int, kinds: set<string>, i: nat) {
    && i < |jobs| && Ready(jobs[i], now) && jobs[i].kind in kinds
    && forall k :: 0 <= k < |jobs| && Ready(jobs[k], now) && jobs[k].kind in kinds ==>
         jobs[i].runAt < jobs[k].runAt || (jobs[i].runAt == jobs[k].runAt && i <= k)
  }

  predicate NothingReady(jobs: seq<Job>, now: int, kinds: set<string>) {
    forall k :: 0 <= k < |jobs| ==> !(Ready(jobs[k], now) && jobs[k].kind in kinds)
  }

  class Queue {
    var jobs: seq<Job>

    constructor (jobs: seq<Job>)
      ensures this.jobs == jobs
    {
      this.jobs := jobs;
    }

    method ClaimNext(now: int, lease: int, kinds: set<string>) returns (r: Option<nat>)
      modifies this
      ensures r.None? ==> jobs == old(jobs) && NothingReady(jobs, now, kinds)
      ensures r.Some? ==> IsNext(old(jobs), now, kinds, r.value)
      ensures r.Some? ==> jobs == old(jobs)[r.value := Claimed(old(jobs)[r.value], now, lease)]
    {
      r := None;
      for i := 0 to |jobs|
        invariant jobs == old(jobs)
        invariant r.None? ==> NothingReady(jobs[..i], now, kinds)
        invariant r.Some? ==> r.value < i && IsNext(jobs[..i], now, kinds, r.value)
      {
        if Ready(jobs[i], now) && jobs[i].kind in kinds && (r.None? || jobs[i].runAt < jobs[r.value].runAt) {
          r := Some(i);
        }
        assert jobs[..i + 1] == jobs[..i] + [jobs[i]];
      }
      assert jobs[..|jobs|] == jobs;
      if r.Some? {
        jobs := jobs[r.value := Claimed(jobs[r.value], now, lease)];
      }
    }

    /** Claims and runs one ready job; None when there is nothing this worker can run. */
    method RunOnce(claimAt: int, settleAt: int, lease: int, kinds: set<string>, result: HandlerResult)
      returns (r: Option<nat>)
      modifies this
      ensures r.None? ==> jobs == old(jobs) && (kinds == {} || NothingReady(jobs, claimAt, kinds))
      ensures r.Some? ==> Remaining(jobs) < Remaining(old(jobs)) && |jobs| == |old(jobs)|
      ensures r.Some? ==>
                && IsNext(old(jobs), claimAt, kinds, r.value)
                && var c := Claimed(old(jobs)[r.value], claimAt, lease);
                   jobs == old(jobs)[r.value := SettledJob(c.(returned := c.returned + if result.Returned? then 1 else 0),
                                                           result, c.attempts, c.maxAttempts, settleAt)]
    {
      if kinds == {} {
        return None;
      }
      r := ClaimNext(claimAt, lease, kinds);
      if r.Some? {
        var c := jobs[r.value];
        var ran := c.(returned := c.returned + if result.Returned? then 1 else 0);
        var settled := SettledJob(ran, result, c.attempts, c.maxAttempts, settleAt);
        RemainingFalls(old(jobs), r.value, settled);
        assert jobs[r.value := settled] == old(jobs)[r.value := settled];
        jobs := jobs[r.value := settled];
      }
    }

    /** `--drain`: every ready job, until none is ready. It ends, after at most as many runs as there were attempts
        left, whatever the handlers do and however long they take. */
    method Drain(lease: int, kinds: set<string>, clock: nat -> int, result: nat -> HandlerResult) returns (ran: nat)
      modifies this
      ensures ran <= Remaining(old(jobs)) && |jobs| == |old(jobs)|
      ensures kinds == {} || NothingReady(jobs, clock(2 * ran), kinds)
    {
      hide RetryDelay, IsNext;
      ran := 0;
      var r := RunOnce(clock(0), clock(1), lease, kinds, result(0));
      while r.Some?
        invariant |jobs| == |old(jobs)|
        invariant ran + Remaining(jobs) + (if r.Some? then 1 else 0) <= Remaining(old(jobs))
        invariant r.None? ==> kinds == {} || NothingReady(jobs, clock(2 * ran), kinds)
        decreases Remaining(jobs) + if r.Some? then 1 else 0
      {
        ran := ran + 1;
        r := RunOnce(clock(2 * ran), clock(2 * ran + 1), lease, kinds, result(ran));
      }
    }
  }
}
