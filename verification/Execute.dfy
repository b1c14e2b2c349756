/** Execute: one action through its connector, with its idempotency key and a bounded number of attempts. Verify: the
    read-back that alone makes an action verified. */
module Execute {
  import opened Models
  import opened Connector

  const MAX_ATTEMPTS: nat := 3

  /** The two systems an action can be written to. */
  datatype Docs = Docs(ent: Doc, gh: Doc)

  predicate ToGitHub(p: Params) { p.target.system == "github" }

  function DocOf(docs: Docs, p: Params): Doc { if ToGitHub(p) then docs.gh else docs.ent }

  function WithDoc(docs: Docs, p: Params, d: Doc): Docs {
    if ToGitHub(p) then docs.(gh := d) else docs.(ent := d)
  }

  predicate IsExecutable(a: ActionView) {
    (a.state == Planned && a.verdict == Some(ALLOW)) || (a.state == Approved && a.verdict == Some(HOLD))
  }

  datatype ExecOutcome = ExecOutcome(state: ActionState, attempts: nat, replayed: bool)

  /** What the loop does next. */
  datatype Next = Finish(state: ActionState) | Retry | Reconcile

  function AfterWrite(out: WriteOutcome, attempt: nat, maxAttempts: nat): Next {
    match out
    case Acknowledged(_) => Finish(Executed)
    case Permanent => Finish(Failed)
    case Transient => if attempt == maxAttempts then Finish(Failed) else Retry
    case TimedOut => Reconcile
  }

  /** After a timeout nothing is retried before the system was read back. */
  function AfterReadback(r: Readback, attempt: nat, maxAttempts: nat): Next {
    match r
    case Unreadable => Finish(Unknown)
    case Seen(true) => Finish(Executed)
    case Seen(false) => if attempt == maxAttempts then Finish(Unknown) else Retry
  }

  /** What each answer of the system leads to: only an acknowledgement, or a read-back that found the state, makes an action
      executed; only a refusal, or a transient error at the last attempt, makes it failed; after a timeout nothing is
      failed, and nothing is retried that the read-back did not find missing. */
  lemma AnswersLeadTo(out: WriteOutcome, r: Readback, attempt: nat, maxAttempts: nat)
    ensures var next := AfterWrite(out, attempt, maxAttempts);
            && (next == Finish(Executed) <==> out.Acknowledged?)
            && (next == Finish(Failed) <==> out == Permanent || (out == Transient && attempt == maxAttempts))
            && (next == Retry <==> out == Transient && attempt != maxAttempts)
            && (next == Reconcile <==> out == TimedOut)
    ensures var next := AfterReadback(r, attempt, maxAttempts);
            && (next == Finish(Executed) <==> r == Seen(true))
            && (next == Finish(Unknown) <==> r == Unreadable || (r == Seen(false) && attempt == maxAttempts))
            && (next == Retry <==> r == Seen(false) && attempt != maxAttempts)
  {
  }

  function NextStep(doc: Doc, key: Key, out: WriteOutcome, attempt: nat, maxAttempts: nat): (n: Next)
    requires attempt <= maxAttempts
    ensures !n.Reconcile? && (n.Retry? ==> attempt < maxAttempts)
  {
    match AfterWrite(out, attempt, maxAttempts)
    case Reconcile => AfterReadback(ReadBack(doc.body, key.params), attempt, maxAttempts)
    case n => n
  }

  function ExecuteFrom(doc: Doc, key: Key, attempt: nat, maxAttempts: nat): (Doc, ExecOutcome)
    requires 1 <= attempt <= maxAttempts
    decreases maxAttempts - attempt
  {
    var (d, out) := Write(doc, key);
    match NextStep(d, key, out, attempt, maxAttempts)
    case Finish(s) => (d, ExecOutcome(s, attempt, out == Acknowledged(true)))
    case Retry => ExecuteFrom(d, key, attempt + 1, maxAttempts)
  }

  method ExecuteAction(a: Action, run: RunId, connector: FixtureConnector, maxAttempts: nat)
    returns (out: Option<ExecOutcome>)
    requires maxAttempts >= 1
    modifies connector
    ensures !IsExecutable(a.View()) ==> out == None && connector.doc == old(connector.doc)
    ensures IsExecutable(a.View()) ==>
              var (d, o) := ExecuteFrom(old(connector.doc), Key(run, a.id, a.params), 1, maxAttempts);
              connector.doc == d && out == Some(o)
  {
    if !IsExecutable(a.View()) {
      return None;
    }
    var key := Key(run, a.id, a.params);
    var attempt := 1;
    while attempt <= maxAttempts
      invariant 1 <= attempt <= maxAttempts
      invariant ExecuteFrom(connector.doc, key, attempt, maxAttempts) ==
                ExecuteFrom(old(connector.doc), key, 1, maxAttempts)
      decreases maxAttempts - attempt
    {
      var w := connector.WriteAction(a, key);
      match w {
        case Acknowledged(replayed) =>
          return Some(ExecOutcome(Executed, attempt, replayed));
        case Transient =>
          if attempt == maxAttempts {
            return Some(ExecOutcome(Failed, attempt, false));
          }
        case TimedOut =>
          var r := connector.VerifyAction(a);
          if r == Unreadable {
            return Some(ExecOutcome(Unknown, attempt, false));
          }
          if r == Seen(true) {
            return Some(ExecOutcome(Executed, attempt, false));
          }
          if attempt == maxAttempts {
            return Some(ExecOutcome(Unknown, attempt, false));
          }
        case Permanent =>
          return Some(ExecOutcome(Failed, attempt, false));
      }
      attempt := attempt + 1;
    }
  }

  /** For every fault schedule and number of attempts: the change is made at most once and only under a key the ledger
      had never seen; executed means the key is in the ledger or a read-back saw the intended state; failed means that
      nothing changed; and the outcome is always a legal move. */
  lemma {:induction false} ExecutionIsExactlyOnce(first: Body, doc: Doc, key: Key, attempt: nat, maxAttempts: nat)
    requires Faithful(first, doc)
    requires 1 <= attempt <= maxAttempts
    ensures var (d, o) := ExecuteFrom(doc, key, attempt, maxAttempts);
            && Faithful(first, d)
            && doc.ledger <= d.ledger
            && (d.applied == doc.applied || (key !in doc.ledger && d.applied == doc.applied + [key]))
            && o.state in {Executed, Failed, Unknown}
            && (o.state == Executed ==> key in d.ledger || ReadBack(d.body, key.params) == Seen(true))
            && (o.state == Failed ==> d.applied == doc.applied)
            && attempt <= o.attempts <= maxAttempts
    decreases maxAttempts - attempt
  {
    hide Write, Faithful;
    WriteIsFaithful(first, doc, key);
    var (d, out) := Write(doc, key);
    var next := NextStep(d, key, out, attempt, maxAttempts);
    if next.Retry? {
      ExecutionIsExactlyOnce(first, d, key, attempt + 1, maxAttempts);
      if d.applied != doc.applied {
        KnownKeyIsReplayed(d, key, attempt + 1, maxAttempts);
      }
    }
  }

  /** A key the ledger holds is answered from the ledger, or refused before it is looked up: nothing changes. */
  lemma {:induction false} KnownKeyIsReplayed(doc: Doc, key: Key, attempt: nat, maxAttempts: nat)
    requires key in doc.ledger && 1 <= attempt <= maxAttempts
    ensures ExecuteFrom(doc, key, attempt, maxAttempts) ==
            (doc, ExecOutcome(if FaultKey(doc.body, key.params).Some? then Executed else Failed, attempt,
                              FaultKey(doc.body, key.params).Some?))
  {
  }

  /** Without faults a fresh key is written at the first attempt. */
  lemma CleanExecution(doc: Doc, key: Key, maxAttempts: nat)
    requires maxAttempts >= 1 && key !in doc.ledger && doc.faults == map[]
    ensures ExecuteFrom(doc, key, 1, maxAttempts) ==
            if FaultKey(doc.body, key.params).Some? && Changed(doc.body, key.params).Some?
            then (Doc(Changed(doc.body, key.params).value, doc.ledger + {key}, map[], doc.applied + [key]),
                  ExecOutcome(Executed, 1, false))
            else (doc, ExecOutcome(Failed, 1, false))
  {
    var (d, out) := Write(doc, key);
    assert doc.faults - {FaultKey(doc.body, key.params).GetOr("")} == map[];
  }

  // --- verify ---------------------------------------------------------------------------------------------------

  predicate Verifiable(s: ActionState) { s in {Executed, Unknown} }

  function VerifiedState(r: Readback): ActionState {
    if r == Seen(true) then Verified else Failed
  }

  function VerifyOne(docs: Docs, a: ActionView): ActionView {
    if Verifiable(a.state) then Move(a, VerifiedState(ReadBack(DocOf(docs, a.params).body, a.params))) else a
  }
}
