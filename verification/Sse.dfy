/** The stream of a run's stage events to one client: the replayed history, then live events, then one end. */
module Sse {
  import opened Models
  import opened Events

  predicate Terminal(s: RunStatus) { s in {Partial, RunStatus.Done, RunFailed} }

  /** Over: the run has reached a terminal status, or no longer exists. */
  predicate Over(status: Option<RunStatus>) { status.None? || Terminal(status.value) }

  /** What ends one wait on the queue: the next event, or the heartbeat with the status then stored. */
  datatype Wake = Got(e: StageEvent) | TimedOut(status: Option<RunStatus>)

  datatype Frame = StageFrame(e: StageEvent) | KeepAlive | End(status: Option<RunStatus>)

  predicate Wanted(e: StageEvent, after: Option<int>) { after.None? || e.seqNo > after.value }

  function Beat(now: Option<RunStatus>): seq<Frame> { if Over(now) then [] else [KeepAlive] }

  function Shown(e: StageEvent, after: Option<int>): seq<Frame> { if Wanted(e, after) then [StageFrame(e)] else [] }

  function OneLess(backlog: nat): nat { if backlog > 0 then backlog - 1 else 0 }

  /** What is sent; when the wakes run out the client is still connected and waiting. */
  function Stream(after: Option<int>, backlog: nat, status: Option<RunStatus>, wakes: seq<Wake>): seq<Frame>
    decreases |wakes|
  {
    if backlog == 0 && Over(status) then [End(status)]
    else if wakes == [] then []
    else
      match wakes[0]
      case TimedOut(now) => Beat(now) + Stream(after, backlog, now, wakes[1..])
      case Got(e) =>
        Shown(e, after) + if Terminal(e.status) then [End(Some(e.status))]
                          else Stream(after, OneLess(backlog), status, wakes[1..])
  }

  method StageEvents(after: Option<int>, replayed: nat, stored: Option<RunStatus>, wakes: seq<Wake>)
    returns (out: seq<Frame>)
    ensures out == Stream(after, replayed, stored, wakes)
  {
    hide Over, Terminal, Wanted, Stream;
    out := [];
    var backlog, status, i := replayed, stored, 0;
    while true
      invariant i <= |wakes|
      invariant Stream(after, replayed, stored, wakes) == out + Stream(after, backlog, status, wakes[i..])
      decreases |wakes| - i
    {
      Stops(after, backlog, status, wakes[i..]);
      if backlog == 0 && Over(status) {
        return out + [End(status)];
      }
      if i == |wakes| {
        assert out + [] == out;
        return;
      }
      Unfold(after, backlog, status, wakes, i);
      ghost var sent := out;
      if wakes[i].TimedOut? {
        status := wakes[i].status;
        if !Over(status) {
          out := out + [KeepAlive];
        }
        Together(sent, Beat(status), Stream(after, backlog, status, wakes[i + 1..]), out);
      } else {
        var e := wakes[i].e;
        backlog := if backlog > 0 then backlog - 1 else 0;
        if Wanted(e, after) {
          out := out + [StageFrame(e)];
        }
        if Terminal(e.status) {
          Together(sent, Shown(e, after), [End(Some(e.status))], out);
          return out + [End(Some(e.status))];
        }
        Together(sent, Shown(e, after), Stream(after, backlog, status, wakes[i + 1..]), out);
      }
      i := i + 1;
    }
    assert false;
  }

  lemma Together<T>(a: seq<T>, b: seq<T>, c: seq<T>, ab: seq<T>)
    requires ab == a + b
    ensures a + (b + c) == ab + c
  {
  }

  lemma Stops(after: Option<int>, backlog: nat, status: Option<RunStatus>, wakes: seq<Wake>)
    ensures backlog == 0 && Over(status) ==> Stream(after, backlog, status, wakes) == [End(status)]
    ensures !(backlog == 0 && Over(status)) && wakes == [] ==> Stream(after, backlog, status, wakes) == []
  {
  }

  lemma Unfold(after: Option<int>, backlog: nat, status: Option<RunStatus>, wakes: seq<Wake>, i: nat)
    requires i < |wakes| && !(backlog == 0 && Over(status))
    ensures Stream(after, backlog, status, wakes[i..]) ==
            if wakes[i].TimedOut? then Beat(wakes[i].status) + Stream(after, backlog, wakes[i].status, wakes[i + 1..])
            else Shown(wakes[i].e, after) + if Terminal(wakes[i].e.status) then [End(Some(wakes[i].e.status))]
                                            else Stream(after, OneLess(backlog), status, wakes[i + 1..])
  {
    assert wakes[i..][0] == wakes[i] && wakes[i..][1..] == wakes[i + 1..];
  }

  // --- what a client sees ---------------------------------------------------------------------------------------

  function Stages(out: seq<Frame>): seq<StageEvent> {
    if out == [] then [] else (if out[0].StageFrame? then [out[0].e] else []) + Stages(out[1..])
  }

  function EventsOf(wakes: seq<Wake>): seq<StageEvent> {
    if wakes == [] then [] else (if wakes[0].Got? then [wakes[0].e] else []) + EventsOf(wakes[1..])
  }

  function Above(es: seq<StageEvent>, after: Option<int>): seq<StageEvent> {
    if es == [] then [] else (if Wanted(es[0], after) then [es[0]] else []) + Above(es[1..], after)
  }

  /** How many events the stream reads before it ends. */
  function Reads(backlog: nat, status: Option<RunStatus>, wakes: seq<Wake>): nat
    decreases |wakes|
  {
    if (backlog == 0 && Over(status)) || wakes == [] then 0
    else
      match wakes[0]
      case TimedOut(now) => Reads(backlog, now, wakes[1..])
      case Got(e) =>
        1 + if Terminal(e.status) then 0 else Reads(OneLess(backlog), status, wakes[1..])
  }

  ghost predicate Ended(out: seq<Frame>) { exists i :: 0 <= i < |out| && out[i].End? }

  lemma {:induction false} StagesAdd(a: seq<Frame>, b: seq<Frame>)
    ensures Stages(a + b) == Stages(a) + Stages(b)
    ensures Ended(b) ==> Ended(a + b)
  {
    if a == [] {
      assert a + b == b;
    } else {
      StagesAdd(a[1..], b);
      assert (a + b)[1..] == a[1..] + b;
    }
    if Ended(b) {
      var i :| 0 <= i < |b| && b[i].End?;
      assert (a + b)[|a| + i].End?;
    }
  }

  lemma AboveFirst(e: StageEvent, es: seq<StageEvent>, after: Option<int>)
    ensures Above([e] + es, after) == Stages(Shown(e, after)) + Above(es, after)
  {
    assert ([e] + es)[1..] == es;
    assert [StageFrame(e)][1..] == [];
  }

  lemma EndOnly(status: Option<RunStatus>)
    ensures Stages([End(status)]) == [] && Ended([End(status)])
  {
    assert [End(status)][1..] == [] && [End(status)][0].End?;
  }

  lemma BeatOnly(now: Option<RunStatus>)
    ensures Stages(Beat(now)) == []
  {
    assert [KeepAlive][1..] == [];
  }

  /** The stage frames are exactly the events that were read and are newer than what the client has; and unless the
      stream ended, every event was read. */
  lemma {:induction false} NothingIsLost(after: Option<int>, backlog: nat, status: Option<RunStatus>, wakes: seq<Wake>)
    ensures var out, n := Stream(after, backlog, status, wakes), Reads(backlog, status, wakes);
            && n <= |EventsOf(wakes)|
            && Stages(out) == Above(EventsOf(wakes)[..n], after)
            && (!Ended(out) ==> n == |EventsOf(wakes)|)
    decreases |wakes|
  {
    hide Over, Terminal, Stages, Ended, Above;
    if backlog == 0 && Over(status) {
      EndOnly(status);
      NoneAbove(after);
    } else if wakes == [] {
      NoneAbove(after);
    } else {
      match wakes[0] {
        case TimedOut(now) =>
          NothingIsLost(after, backlog, now, wakes[1..]);
          BeatOnly(now);
          assert EventsOf(wakes) == EventsOf(wakes[1..]);
          StagesAdd(Beat(now), Stream(after, backlog, now, wakes[1..]));
        case Got(e) =>
          var more := EventsOf(wakes[1..]);
          assert EventsOf(wakes) == [e] + more;
          if Terminal(e.status) {
            EndOnly(Some(e.status));
            StagesAdd(Shown(e, after), [End(Some(e.status))]);
            AboveFirst(e, [], after);
            NoneAbove(after);
            assert ([e] + more)[..1] == [e] + [];
          } else {
            NothingIsLost(after, OneLess(backlog), status, wakes[1..]);
            var n := Reads(OneLess(backlog), status, wakes[1..]);
            StagesAdd(Shown(e, after), Stream(after, OneLess(backlog), status, wakes[1..]));
            AboveFirst(e, more[..n], after);
            assert ([e] + more)[..n + 1] == [e] + more[..n];
          }
      }
    }
  }

  lemma NoneAbove(after: Option<int>)
    ensures Above([], after) == [] && Stages([]) == []
  {
  }

  ghost predicate EndsWell(out: seq<Frame>) {
    forall i :: 0 <= i < |out| && out[i].End? ==> i == |out| - 1 && Over(out[i].status)
  }

  lemma EndsWellAdd(a: seq<Frame>, b: seq<Frame>)
    requires EndsWell(b) && forall i :: 0 <= i < |a| ==> !a[i].End?
    ensures EndsWell(a + b)
  {
  }

  /** `end` comes at most once, comes last, and says why: a terminal status, or a run that is gone. */
  lemma {:induction false} EndIsLast(after: Option<int>, backlog: nat, status: Option<RunStatus>, wakes: seq<Wake>)
    ensures EndsWell(Stream(after, backlog, status, wakes))
    decreases |wakes|
  {
    hide EndsWell;
    if backlog == 0 && Over(status) {
      OneEnd(status);
    } else if wakes == [] {
      OneEnd(None);
    } else {
      match wakes[0] {
        case TimedOut(now) =>
          EndIsLast(after, backlog, now, wakes[1..]);
          EndsWellAdd(Beat(now), Stream(after, backlog, now, wakes[1..]));
        case Got(e) =>
          if Terminal(e.status) {
            OneEnd(Some(e.status));
            EndsWellAdd(Shown(e, after), [End(Some(e.status))]);
          } else {
            EndIsLast(after, OneLess(backlog), status, wakes[1..]);
            EndsWellAdd(Shown(e, after), Stream(after, OneLess(backlog), status, wakes[1..]));
          }
      }
    }
  }

  lemma OneEnd(status: Option<RunStatus>)
    requires Over(status)
    ensures EndsWell([End(status)]) && EndsWell([])
  {
  }

  lemma {:induction false} AboveIsSuffix(es: seq<StageEvent>, run: RunId, next: nat, after: Option<int>)
    requires Contiguous(es, run, next)
    ensures Contiguous(Above(es, after), run, next)
    ensures |Above(es, after)| <= |es|
    ensures after.None? ==> Above(es, after) == es
    decreases |es|
  {
    if es != [] {
      assert Contiguous(es[1..], run, next);
      AboveIsSuffix(es[1..], run, next, after);
      if Wanted(es[0], after) {
        AllAbove(es, run, next, after);
      }
    }
  }

  lemma {:induction false} AllAbove(es: seq<StageEvent>, run: RunId, next: nat, after: Option<int>)
    requires Contiguous(es, run, next) && (es != [] ==> Wanted(es[0], after))
    ensures Above(es, after) == es
    decreases |es|
  {
    if es != [] {
      assert Contiguous(es[1..], run, next);
      assert |es| > 1 ==> es[1..][0].seqNo == es[0].seqNo + 1;
      AllAbove(es[1..], run, next, after);
      assert es == [es[0]] + es[1..];
    }
  }

  /** A client reading a subscriber's queue: its stage frames are numbered one after another with no gap and no repeat,
      all newer than the last it had; and they end exactly where its reading ends. */
  lemma ClientSeesEventsInOrder(es: seq<StageEvent>, run: RunId, next: nat, after: Option<int>, backlog: nat,
                                status: Option<RunStatus>, wakes: seq<Wake>)
    requires Contiguous(es, run, next) && EventsOf(wakes) <= es
    ensures var n := Reads(backlog, status, wakes);
            var s := Stages(Stream(after, backlog, status, wakes));
            && n <= |es| && n <= |EventsOf(wakes)|
            && Contiguous(s, run, next - |es| + n)
            && forall e :: e in s <==> e in EventsOf(wakes)[..n] && (after.None? || e.seqNo > after.value)
  {
    NothingIsLost(after, backlog, status, wakes);
    var n := Reads(backlog, status, wakes);
    assert EventsOf(wakes)[..n] == es[..n];
    assert Contiguous(es[..n], run, next - |es| + n);
    AboveIsSuffix(es[..n], run, next - |es| + n, after);
    AboveWanted(es[..n], after);
  }

  lemma {:induction false} AboveWanted(es: seq<StageEvent>, after: Option<int>)
    ensures forall e :: e in Above(es, after) <==> e in es && (after.None? || e.seqNo > after.value)
    decreases |es|
  {
    if es != [] {
      AboveWanted(es[1..], after);
      assert forall e :: e in es <==> e == es[0] || e in es[1..];
    }
  }

  // --- when a stream ends ---------------------------------------------------------------------------------------

  /** The status the stream knows after so many wakes: what the last heartbeat found, or what it started from. */
  function Known(status: Option<RunStatus>, wakes: seq<Wake>): Option<RunStatus> {
    if wakes == [] then status
    else if wakes[|wakes| - 1].TimedOut? then wakes[|wakes| - 1].status
    else Known(status, wakes[..|wakes| - 1])
  }

  /** After k wakes the stream has a reason to end: the replayed history was read and the run is over, or the last event read
      says that it is. */
  ghost predicate EndsAfter(backlog: nat, status: Option<RunStatus>, wakes: seq<Wake>, k: nat)
    requires k <= |wakes|
  {
    || (|EventsOf(wakes[..k])| >= backlog && IsOver(Known(status, wakes[..k])))
    || (k > 0 && wakes[k - 1].Got? && IsOver(Some(wakes[k - 1].e.status)))
  }

  ghost predicate IsOver(status: Option<RunStatus>) {
    status != Some(Running) && status != Some(NeedsInput) && status != Some(AwaitingApproval)
  }

  lemma KnownTail(status: Option<RunStatus>, w: Wake, more: seq<Wake>)
    ensures Known(status, [w] + more) == Known(if w.TimedOut? then w.status else status, more)
    decreases |more|
  {
    var all := [w] + more;
    if more == [] {
      assert all[..0] == [];
    } else {
      assert all[..|all| - 1] == [w] + more[..|more| - 1];
      KnownTail(status, w, more[..|more| - 1]);
    }
  }

  lemma EventsTail(w: Wake, more: seq<Wake>)
    ensures EventsOf([w] + more) == (if w.Got? then [w.e] else []) + EventsOf(more)
  {
    assert ([w] + more)[1..] == more;
  }

  /** One wake later, the reasons to end are those of the rest, and a last event that says so. */
  lemma EndsLater(backlog: nat, status: Option<RunStatus>, wakes: seq<Wake>, k: nat)
    requires 0 < k <= |wakes|
    ensures EndsAfter(backlog, status, wakes, k) <==>
            || (k == 1 && wakes[0].Got? && IsOver(Some(wakes[0].e.status)))
            || EndsAfter(if wakes[0].Got? then OneLess(backlog) else backlog,
                         if wakes[0].TimedOut? then wakes[0].status else status, wakes[1..], k - 1)
  {
    hide Known, EventsOf, IsOver;
    assert wakes[..k] == [wakes[0]] + wakes[1..][..k - 1];
    KnownTail(status, wakes[0], wakes[1..][..k - 1]);
    EventsTail(wakes[0], wakes[1..][..k - 1]);
  }

  lemma EndsAtOnce(backlog: nat, status: Option<RunStatus>, wakes: seq<Wake>)
    ensures EndsAfter(backlog, status, wakes, 0) <==> backlog == 0 && Over(status)
  {
    OverIs(status);
    assert wakes[..0] == [];
    assert Known(status, []) == status;
  }

  lemma OverIs(status: Option<RunStatus>)
    ensures Over(status) <==> IsOver(status)
  {
    if status.Some? {
      match status.value {
        case Running => case NeedsInput => case AwaitingApproval => case Partial => case Done => case RunFailed =>
      }
    }
  }

  lemma EndedAdds(a: seq<Frame>, b: seq<Frame>)
    requires forall i :: 0 <= i < |a| ==> !a[i].End?
    ensures Ended(a + b) <==> Ended(b)
  {
    if Ended(b) {
      var i :| 0 <= i < |b| && b[i].End?;
      assert (a + b)[|a| + i].End?;
    }
  }

  /** The stream ends exactly when it has a reason to. */
  lemma {:induction false} EndsExactly(after: Option<int>, backlog: nat, status: Option<RunStatus>, wakes: seq<Wake>)
    ensures Ended(Stream(after, backlog, status, wakes)) <==>
            exists k :: 0 <= k <= |wakes| && EndsAfter(backlog, status, wakes, k)
    decreases |wakes|
  {
    hide EndsAfter, Ended, Known, EventsOf;
    EndsAtOnce(backlog, status, wakes);
    if backlog == 0 && Over(status) {
      EndOnly(status);
    } else if wakes == [] {
      NoFrame();
    } else {
      var rest, known := wakes[1..], if wakes[0].TimedOut? then wakes[0].status else status;
      var left := if wakes[0].Got? then OneLess(backlog) else backlog;
      EndsExactly(after, left, known, rest);
      EndsFirstOrLater(backlog, status, wakes);
      if wakes[0].TimedOut? {
        EndedAdds(Beat(known), Stream(after, left, known, rest));
      } else {
        EndOnly(Some(wakes[0].e.status));
        EndedAdds(Shown(wakes[0].e, after),
                  if Terminal(wakes[0].e.status) then [End(Some(wakes[0].e.status))] else Stream(after, left, known, rest));
      }
    }
  }

  lemma NoFrame()
    ensures !Ended([])
  {
  }

  lemma EndsFirstOrLater(backlog: nat, status: Option<RunStatus>, wakes: seq<Wake>)
    requires wakes != [] && !EndsAfter(backlog, status, wakes, 0)
    ensures var left := if wakes[0].Got? then OneLess(backlog) else backlog;
            var known := if wakes[0].TimedOut? then wakes[0].status else status;
            (exists k :: 0 <= k <= |wakes| && EndsAfter(backlog, status, wakes, k)) <==>
            (wakes[0].Got? && Terminal(wakes[0].e.status)) ||
            exists k :: 0 <= k <= |wakes[1..]| && EndsAfter(left, known, wakes[1..], k)
  {
    hide EndsAfter, IsOver;
    if wakes[0].Got? {
      OverIs(Some(wakes[0].e.status));
    }
    var left := if wakes[0].Got? then OneLess(backlog) else backlog;
    var known := if wakes[0].TimedOut? then wakes[0].status else status;
    if k :| 0 <= k <= |wakes| && EndsAfter(backlog, status, wakes, k) {
      EndsLater(backlog, status, wakes, k);
      assert k == 1 || EndsAfter(left, known, wakes[1..], k - 1);
    }
    if wakes[0].Got? && Terminal(wakes[0].e.status) {
      EndsLater(backlog, status, wakes, 1);
    }
    if k :| 0 <= k <= |wakes[1..]| && EndsAfter(left, known, wakes[1..], k) {
      EndsLater(backlog, status, wakes, k + 1);
    }
  }
}
