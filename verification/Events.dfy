/** Stage events: the bus that numbers and fans them out, and the stream a client reads. */
module Events {
  import opened Models

  datatype StageEvent = StageEvent(run: RunId, seqNo: nat, stage: Stage, status: RunStatus)

  /** Numbered without gaps, the last one just before `next`. */
  ghost predicate Contiguous(es: seq<StageEvent>, run: RunId, next: nat) {
    && |es| <= next
    && forall i :: 0 <= i < |es| ==> es[i].run == run && es[i].seqNo == next - |es| + i
  }

  /** The last `keep` events; a bound of zero deletes nothing. */
  function Trimmed(es: seq<StageEvent>, keep: nat): seq<StageEvent> {
    if keep == 0 || |es| <= keep then es else es[|es| - keep..]
  }

  lemma OneMore(es: seq<StageEvent>, run: RunId, next: nat, stage: Stage, status: RunStatus, keep: nat)
    requires Contiguous(es, run, next)
    ensures var more := es + [StageEvent(run, next, stage, status)];
            && Contiguous(more, run, next + 1) && Contiguous(Trimmed(more, keep), run, next + 1)
            && Trimmed(more, keep) != [] && (keep > 0 ==> |Trimmed(more, keep)| <= keep)
  {
  }

  /** A subscriber's queue. `received` is everything that was put in; the first `taken` of them were read. */
  class Queue {
    const run: RunId
    var received: seq<StageEvent>
    var taken: nat

    constructor (run: RunId, replay: seq<StageEvent>)
      ensures this.run == run && received == replay && taken == 0
    {
      this.run, received, taken := run, replay, 0;
    }

    method Put(e: StageEvent)
      modifies this`received
      ensures received == old(received) + [e]
    {
      received := received + [e];
    }
  }

  class EventBus {
    const keep: nat
    var nextSeq: map<RunId, nat>
    var past: map<RunId, seq<StageEvent>>
    var queues: map<RunId, set<Queue>>

    function Next(run: RunId): nat
      reads this
    {
      if run in nextSeq then nextSeq[run] else 0
    }

    function Past(run: RunId): seq<StageEvent>
      reads this
    {
      if run in past then past[run] else []
    }

    function Queues(run: RunId): set<Queue>
      reads this
    {
      if run in queues then queues[run] else {}
    }

    ghost predicate RunOk(run: RunId)
      reads this, Queues(run)
    {
      && Contiguous(Past(run), run, Next(run))
      && (Next(run) > 0 ==> Past(run) != [])
      && (keep > 0 ==> |Past(run)| <= keep)
      && forall q :: q in Queues(run) ==>
           q.run == run && Contiguous(q.received, run, Next(run)) && (Next(run) > 0 ==> q.received != [])
    }

    /** For every run: the history is the latest stretch of its events, and each open queue has received a gap-free
        stretch that reaches up to now. */
    ghost predicate Valid()
      reads this, set run, q | run in queues && q in queues[run] :: q
    {
      forall run :: RunOk(run)
    }

    constructor (keep: nat)
      ensures Valid() && this.keep == keep && nextSeq == map[] && past == map[] && queues == map[]
    {
      this.keep, nextSeq, past, queues := keep, map[], map[], map[];
    }

    /** A queue that starts with what already happened and stays open for what is to come. */
    method Subscribe(run: RunId) returns (q: Queue)
      requires Valid()
      modifies this`queues
      ensures Valid() && fresh(q)
      ensures q.run == run && q.received == Past(run) && q.taken == 0
      ensures queues == old(queues)[run := old(Queues(run)) + {q}]
      ensures forall r :: r != run ==> Queues(r) == old(Queues(r))
    {
      assert RunOk(run);
      q := new Queue(run, Past(run));
      queues := queues[run := Queues(run) + {q}];
      forall r ensures RunOk(r) { assert old(RunOk(r)); }
    }

    method Unsubscribe(run: RunId, q: Queue)
      requires Valid()
      modifies this`queues
      ensures Valid()
      ensures queues == old(queues)[run := old(Queues(run)) - {q}]
    {
      queues := queues[run := Queues(run) - {q}];
      forall r ensures RunOk(r) { assert old(RunOk(r)); }
    }

    /** Numbers an event, remembers it and puts it in every open queue of its run, and in no other. */
    method Emit(run: RunId, stage: Stage, status: RunStatus) returns (e: StageEvent)
      requires Valid()
      modifies this`nextSeq, this`past, Queues(run)
      ensures Valid()
      ensures e == StageEvent(run, old(Next(run)), stage, status)
      ensures nextSeq == old(nextSeq)[run := old(Next(run)) + 1]
      ensures past == old(past)[run := Trimmed(old(Past(run)) + [e], keep)]
      ensures forall q :: q in Queues(run) ==> q.received == old(q.received) + [e] && q.taken == old(q.taken)
    {
      hide Contiguous, Trimmed;
      assert RunOk(run);
      e := StageEvent(run, Next(run), stage, status);
      OneMore(Past(run), run, Next(run), stage, status, keep);
      forall q | q in Queues(run) ensures Contiguous(q.received + [e], run, Next(run) + 1) {
        OneMore(q.received, run, Next(run), stage, status, keep);
      }
      nextSeq := nextSeq[run := Next(run) + 1];
      past := past[run := Trimmed(Past(run) + [e], keep)];
      FanOut(Queues(run), e);
      forall r ensures RunOk(r) {
        assert old(RunOk(r));
        if r != run {
          assert forall q :: q in Queues(r) ==> q !in old(Queues(run));
        }
      }
    }

    static method FanOut(open: set<Queue>, e: StageEvent)
      modifies open
      ensures forall q :: q in open ==> q.received == old(q.received) + [e] && q.taken == old(q.taken)
    {
      var rest := open;
      while rest != {}
        invariant rest <= open
        invariant forall q :: q in open ==>
                    q.received == (if q in rest then old(q.received) else old(q.received) + [e]) && q.taken == old(q.taken)
        decreases |rest|
      {
        var q :| q in rest;
        q.Put(e);
        rest := rest - {q};
      }
    }
  }
}
