/** The fixture connectors: a document per system, an idempotency ledger and injected faults. */
module Connector {
  import opened Models

  /** What the entitlement catalogue says about one entitlement. */
  datatype Entry = Entry(system: string, repo: string, permission: string, teams: seq<string>, roleScope: seq<string>)

  /** What a system holds. People and entitlements for one, repository collaborators for the other. */
  datatype Body =
    | Entitlements(catalog: map<string, Entry>, holdings: map<string, seq<string>>)
    | GitHub(logins: map<string, string>, repos: map<string, map<string, string>>)

  datatype Fault = TransientOnce | TimeoutBeforeApply | TimeoutAfterApply | AckWithoutApply | OtherFault

  /** `applied` is history for the proofs: the keys whose change reached the body, in order. */
  datatype Doc = Doc(body: Body, ledger: set<Key>, faults: map<string, Fault>, applied: seq<Key>)

  datatype WriteOutcome = Acknowledged(replayed: bool) | Transient | TimedOut | Permanent
  datatype Readback = Seen(matches: bool) | Unreadable

  function Held(body: Body, subject: string): seq<string>
    requires body.Entitlements?
  {
    if subject in body.holdings then body.holdings[subject] else []
  }

  function RemoveFirst(s: seq<string>, x: string): (r: seq<string>)
    ensures x in s ==> multiset(r) == multiset(s) - multiset{x}
    ensures x !in s ==> r == s
  {
    if s == [] then []
    else if s[0] == x then assert s == [s[0]] + s[1..]; s[1..]
    else assert s == [s[0]] + s[1..]; [s[0]] + RemoveFirst(s[1..], x)
  }

  /** The checks before the locked write: the target's keys, the kind, the login and the repository. The result is
      the key under which a fault may be injected, or None when the write is refused outright. */
  function FaultKey(body: Body, p: Params): Option<string> {
    var t := p.target;
    match body
    case Entitlements(_, _) =>
      if t.subject == "" || t.entitlement == "" || p.kind !in {"grant", "revoke"} then None else Some(t.entitlement)
    case GitHub(logins, repos) =>
      if t.subject == "" || t.repo == "" || t.permission == "" then None
      else if t.subject !in logins || logins[t.subject] == "" || t.repo !in repos then None
      else Some(t.repo + ":" + logins[t.subject])
  }

  /** The change itself; None when it raises. */
  function Changed(body: Body, p: Params): Option<Body> {
    var t := p.target;
    match body
    case Entitlements(catalog, holdings) =>
      if t.entitlement !in catalog then None
      else
        var held := Held(body, t.subject);
        var next := if p.kind == "grant" && t.entitlement !in held then held + [t.entitlement]
                    else if p.kind == "revoke" && t.entitlement in held then RemoveFirst(held, t.entitlement)
                    else held;
        Some(Entitlements(catalog, holdings[t.subject := next]))
    case GitHub(logins, repos) =>
      if t.repo !in repos || t.subject !in logins then None
      else if p.kind == "grant" then
        Some(GitHub(logins, repos[t.repo := repos[t.repo][logins[t.subject] := t.permission]]))
      else if p.kind == "revoke" then
        Some(GitHub(logins, repos[t.repo := repos[t.repo] - {logins[t.subject]}]))
      else None
  }

  /** One keyed write under the document's lock. An exception inside the change leaves the stored document as it was,
      the injected fault included. */
  function Write(doc: Doc, key: Key): (Doc, WriteOutcome) {
    match FaultKey(doc.body, key.params)
    case None => (doc, Permanent)
    case Some(fk) =>
      if key in doc.ledger then (doc, Acknowledged(true))
      else
        var fault: Option<Fault> := if fk in doc.faults then Some(doc.faults[fk]) else None;
        var popped := doc.(faults := doc.faults - {fk});
        match fault
        case Some(TransientOnce) => (popped, Transient)
        case Some(TimeoutBeforeApply) => (popped, TimedOut)
        case Some(AckWithoutApply) => (popped.(ledger := doc.ledger + {key}), Acknowledged(false))
        case _ =>
          match Changed(doc.body, key.params)
          case None => (doc, Permanent)
          case Some(body) =>
            (Doc(body, doc.ledger + {key}, popped.faults, doc.applied + [key]),
             if fault == Some(TimeoutAfterApply) then TimedOut else Acknowledged(false))
  }

  /** Reads the system back: does it hold what the action intended? A missing repository (which no write accepts)
      reads as unreadable. */
  function ReadBack(body: Body, p: Params): Readback {
    var t := p.target;
    match body
    case Entitlements(_, _) =>
      if t.subject == "" || t.entitlement == "" then Unreadable
      else Seen((t.entitlement in Held(body, t.subject)) == (p.kind == "grant"))
    case GitHub(logins, repos) =>
      if t.subject == "" || t.repo == "" || t.permission == "" then Unreadable
      else if t.subject !in logins || logins[t.subject] == "" || t.repo !in repos then Unreadable
      else
        var login := logins[t.subject];
        var collaborators := repos[t.repo];
        Seen(if p.kind == "grant" then login in collaborators && collaborators[login] == t.permission
             else login !in collaborators)
  }

  class FixtureConnector {
    var doc: Doc

    constructor (body: Body)
      ensures doc == Doc(body, {}, map[], [])
    {
      doc := Doc(body, {}, map[], []);
    }

    method WriteAction(a: Action, key: Key) returns (out: WriteOutcome)
      requires key.params == a.params
      modifies this
      ensures (doc, out) == Write(old(doc), key)
    {
      var fk := FaultKey(doc.body, a.params);
      if fk.None? {
        return Permanent;
      }
      if key in doc.ledger {
        return Acknowledged(true);
      }
      var fault := if fk.value in doc.faults then Some(doc.faults[fk.value]) else None;
      var next := doc.(faults := doc.faults - {fk.value});
      if fault == Some(TransientOnce) {
        doc := next;
        return Transient;
      }
      if fault == Some(TimeoutBeforeApply) {
        doc := next;
        return TimedOut;
      }
      if fault != Some(AckWithoutApply) {
        var body := Changed(doc.body, a.params);
        if body.None? {
          return Permanent;
        }
        next := next.(body := body.value, applied := doc.applied + [key]);
      }
      doc := next.(ledger := doc.ledger + {key});
      out := if fault == Some(TimeoutAfterApply) then TimedOut else Acknowledged(false);
    }

    method VerifyAction(a: Action) returns (r: Readback)
      ensures r == ReadBack(doc.body, a.params)
    {
      r := ReadBack(doc.body, a.params);
    }

    method InjectFault(key: string, fault: Fault)
      modifies this
      ensures doc == old(doc).(faults := old(doc).faults[key := fault])
    {
      doc := doc.(faults := doc.faults[key := fault]);
    }
  }

  // --- what the ledger guarantees -------------------------------------------------------------------------------

  predicate NoDuplicates<T(==)>(s: seq<T>) {
    forall i, j :: 0 <= i < j < |s| ==> s[i] != s[j]
  }

  lemma {:induction false} OccursOnce<T>(s: seq<T>, x: T)
    requires NoDuplicates(s)
    ensures multiset(s)[x] == if x in s then 1 else 0
    decreases |s|
  {
    if s != [] {
      assert s == [s[0]] + s[1..];
      OccursOnce(s[1..], x);
    }
  }

  /** The body after the changes of `keys`, each applied once, in order. */
  function Replayed(body: Body, keys: seq<Key>): Body {
    if keys == [] then body
    else
      var before := Replayed(body, keys[..|keys| - 1]);
      match Changed(before, keys[|keys| - 1].params) case Some(b) => b case None => before
  }

  /** The document is its first body with each applied key's change made exactly once, and every such key is in the
      ledger. */
  ghost predicate Faithful(first: Body, doc: Doc) {
    && NoDuplicates(doc.applied)
    && (forall k :: k in doc.applied ==> k in doc.ledger)
    && doc.body == Replayed(first, doc.applied)
  }

  /** Whatever the fault and however often the key was used before, a write keeps the document faithful, forgets no
      key, and changes the body only for a key it had never seen. */
  lemma WriteIsFaithful(first: Body, doc: Doc, key: Key)
    requires Faithful(first, doc)
    ensures var (d, out) := Write(doc, key);
            && Faithful(first, d)
            && doc.ledger <= d.ledger
            && ((d.body == doc.body && d.applied == doc.applied) ||
                (key !in doc.ledger && key in d.ledger && d.applied == doc.applied + [key] &&
                 FaultKey(d.body, key.params).Some?))
            && (out.Acknowledged? ==> key in d.ledger)
            && (out.Permanent? || out.Transient? ==> d.body == doc.body && d.applied == doc.applied)
  {
    var (d, out) := Write(doc, key);
    if d.applied != doc.applied {
      assert d.applied == doc.applied + [key];
      assert d.applied[..|d.applied| - 1] == doc.applied;
    }
  }

  /** What a change does, and all it does: for entitlements the person ends with one copy more if a grant found none and with one
      less if a revoke found one; for GitHub the person's slot in the repository is set or emptied. Nothing of other
      people, entitlements, repositories or the catalogue changes. */
  lemma ChangeIsLocal(body: Body, p: Params)
    requires Changed(body, p).Some?
    ensures var t, after := p.target, Changed(body, p).value;
            && after.Entitlements? == body.Entitlements?
            && (body.Entitlements? ==>
                  && after.catalog == body.catalog
                  && (forall q :: q != t.subject ==> Held(after, q) == Held(body, q))
                  && (forall e :: multiset(Held(after, t.subject))[e] ==
                        var n := multiset(Held(body, t.subject))[e];
                        if e == t.entitlement && p.kind == "grant" && n == 0 then 1
                        else if e == t.entitlement && p.kind == "revoke" && n > 0 then n - 1 else n))
            && (body.GitHub? ==>
                  && after.logins == body.logins && after.repos.Keys == body.repos.Keys
                  && (forall r :: r in body.repos && r != t.repo ==> after.repos[r] == body.repos[r])
                  && after.repos[t.repo] ==
                     if p.kind == "grant" then body.repos[t.repo][body.logins[t.subject] := t.permission]
                     else body.repos[t.repo] - {body.logins[t.subject]})
  {
    if body.Entitlements? {
      HoldingsChange(body, p);
    }
  }

  lemma HoldingsChange(body: Body, p: Params)
    requires body.Entitlements? && Changed(body, p).Some?
    ensures var t, after := p.target, Changed(body, p).value;
            && after.Entitlements? && after.catalog == body.catalog
            && (forall q :: q != t.subject ==> Held(after, q) == Held(body, q))
            && (forall e :: multiset(Held(after, t.subject))[e] ==
                  var n := multiset(Held(body, t.subject))[e];
                  if e == t.entitlement && p.kind == "grant" && n == 0 then 1
                  else if e == t.entitlement && p.kind == "revoke" && n > 0 then n - 1 else n)
  {
    hide RemoveFirst;
    var t, held, next := p.target, Held(body, p.target.subject), Held(Changed(body, p).value, p.target.subject);
    if p.kind == "grant" && t.entitlement !in held {
      assert multiset(next) == multiset(held) + multiset{t.entitlement};
    } else if p.kind == "revoke" && t.entitlement in held {
      assert multiset(next) == multiset(held) - multiset{t.entitlement};
    } else {
      assert next == held;
    }
  }

  /** Which fresh writes are refused outright, when no fault is injected: an incomplete target, an unknown entitlement, login
      or repository, and a kind that is neither grant nor revoke. Every other one is made and acknowledged. */
  lemma RefusedExactly(doc: Doc, key: Key)
    requires key !in doc.ledger && doc.faults == map[]
    ensures var t, kind, out := key.params.target, key.params.kind, Write(doc, key).1;
            && (out == Permanent || out == Acknowledged(false))
            && (doc.body.Entitlements? ==>
                  (out == Acknowledged(false) <==>
                     t.subject != "" && t.entitlement != "" && (kind == "grant" || kind == "revoke") &&
                     t.entitlement in doc.body.catalog))
            && (doc.body.GitHub? ==>
                  (out == Acknowledged(false) <==>
                     t.subject != "" && t.repo != "" && t.permission != "" && (kind == "grant" || kind == "revoke") &&
                     t.subject in doc.body.logins && doc.body.logins[t.subject] != "" && t.repo in doc.body.repos))
            && (out == Permanent ==> Write(doc, key).0 == doc)
  {
  }

  /** What the read-back reads: it finds the intended state exactly when the change would leave what the person holds, or the
      repository's collaborators, as they are. A slot that is taken with another permission is not the one granted. */
  lemma ReadBackMeans(body: Body, p: Params)
    requires FaultKey(body, p).Some? && Changed(body, p).Some?
    ensures var t, after := p.target, Changed(body, p).value;
            && ReadBack(body, p).Seen?
            && (body.Entitlements? ==> (ReadBack(body, p) == Seen(true) <==> Held(after, t.subject) == Held(body, t.subject)))
            && (body.GitHub? ==> (ReadBack(body, p) == Seen(true) <==> after.repos[t.repo] == body.repos[t.repo]))
            && (body.GitHub? && p.kind == "grant" && body.logins[t.subject] in body.repos[t.repo] ==>
                  (body.repos[t.repo][body.logins[t.subject]] != t.permission ==> ReadBack(body, p) == Seen(false)))
  {
    var t := p.target;
    match body
    case Entitlements(_, _) =>
      var held := Held(body, t.subject);
      var next := Held(Changed(body, p).value, t.subject);
      if p.kind == "revoke" && t.entitlement in held {
        assert |multiset(next)| == |multiset(held)| - 1;
        assert next != held;
      }
      if p.kind == "grant" && t.entitlement !in held {
        assert |next| == |held| + 1;
      }
    case GitHub(logins, repos) =>
      var login, slots := logins[t.subject], repos[t.repo];
      if p.kind == "grant" {
        assert slots[login := t.permission] == slots <==> login in slots && slots[login] == t.permission by {
          assert slots[login := t.permission][login] == t.permission;
          if login in slots && slots[login] == t.permission {
            assert slots[login := t.permission] == slots;
          }
        }
      } else {
        assert slots - {login} == slots <==> login !in slots by {
          assert login !in slots - {login};
          if login !in slots {
            assert slots - {login} == slots;
          }
        }
      }
  }

  /** When nothing can be read back: the target is incomplete, or its login or repository is unknown. */
  lemma UnreadableExactly(body: Body, p: Params)
    ensures var t := p.target;
            ReadBack(body, p) == Unreadable <==>
              || t.subject == ""
              || (body.Entitlements? && t.entitlement == "")
              || (body.GitHub? && (t.repo == "" || t.permission == "" || t.subject !in body.logins ||
                                   body.logins[t.subject] == "" || t.repo !in body.repos))
  {
  }

  /** An acknowledged fresh write that no fault touched is there when read back. Duplicate holdings are the exact
      exception: a revoke removes one copy. */
  lemma CleanWriteLands(doc: Doc, key: Key)
    requires key !in doc.ledger
    requires FaultKey(doc.body, key.params).Some?
    requires FaultKey(doc.body, key.params).value !in doc.faults
    requires Changed(doc.body, key.params).Some?
    ensures var (d, out) := Write(doc, key);
            && out == Acknowledged(false)
            && (ReadBack(d.body, key.params) == Seen(true) <==>
                !(doc.body.Entitlements? && key.params.kind == "revoke" &&
                  multiset(Held(doc.body, key.params.target.subject))[key.params.target.entitlement] > 1))
  {
    var (d, out) := Write(doc, key);
    if doc.body.Entitlements? {
      var t := key.params.target;
      var held := Held(doc.body, t.subject);
      assert Held(d.body, t.subject) == d.body.holdings[t.subject];
      if key.params.kind == "revoke" {
        assert t.entitlement in Held(d.body, t.subject) <==> multiset(Held(d.body, t.subject))[t.entitlement] > 0;
      }
    }
  }

  /** That exception on a concrete document: whoever holds an entitlement twice still holds it after an acknowledged revoke. */
  lemma RepeatedHoldingStays(run: RunId, subject: string, e: string, entry: Entry)
    requires subject != "" && e != ""
    ensures var doc := Doc(Entitlements(map[e := entry], map[subject := [e, e]]), {}, map[], []);
            var key := Key(run, "R01", Params("revoke", Target(entry.system, subject, e, "", "", "transfer")));
            var (d, out) := Write(doc, key);
            out == Acknowledged(false) && Held(d.body, subject) == [e] && ReadBack(d.body, key.params) == Seen(false)
  {
    assert [e, e][1..] == [e];
  }

  /** An injected fault meets the next write under its key and no later one. A transient fault or a timeout before the
      change leaves the system as it was, a timeout after it does not, and a write that was acknowledged without being
      applied is never tried again: its key is in the ledger. */
  lemma InjectedFaultFiresOnce(doc: Doc, key: Key, fault: Fault)
    requires key !in doc.ledger
    requires FaultKey(doc.body, key.params).Some? && Changed(doc.body, key.params).Some?
    ensures var fk := FaultKey(doc.body, key.params).value;
            var (clean, _) := Write(doc.(faults := doc.faults - {fk}), key);
            var (d, out) := Write(doc.(faults := doc.faults[fk := fault]), key);
            && d.faults == doc.faults - {fk}
            && (out.TimedOut? <==> fault.TimeoutBeforeApply? || fault.TimeoutAfterApply?)
            && (out.Transient? <==> fault.TransientOnce?)
            && (out == Acknowledged(false) <==> fault.AckWithoutApply? || fault.OtherFault?)
            && (d == clean <==> fault.TimeoutAfterApply? || fault.OtherFault?)
            && (d.body == doc.body && d.applied == doc.applied <==>
                  fault.TransientOnce? || fault.TimeoutBeforeApply? || fault.AckWithoutApply?)
            && (fault.TransientOnce? || fault.TimeoutBeforeApply? ==> Write(d, key) == (clean, Acknowledged(false)))
            && (fault.AckWithoutApply? ==> Write(d, key) == (d, Acknowledged(true)))
  {
    var fk := FaultKey(doc.body, key.params).value;
    assert doc.faults[fk := fault] - {fk} == doc.faults - {fk};
    assert doc.faults - {fk} - {fk} == doc.faults - {fk};
    assert |doc.applied + [key]| != |doc.applied|;
  }

  /** After a timeout the read-back tells whether the change was made: a system that did not show the intended state
      before shows it now exactly when the timeout came after the change; a revoke of an entitlement held more than once
      is the exception, as in CleanWriteLands. */
  lemma ReadBackTellsTimeouts(doc: Doc, key: Key, fault: Fault)
    requires key !in doc.ledger
    requires FaultKey(doc.body, key.params).Some? && Changed(doc.body, key.params).Some?
    requires ReadBack(doc.body, key.params) == Seen(false)
    ensures var fk := FaultKey(doc.body, key.params).value;
            var (d, out) := Write(doc.(faults := doc.faults[fk := fault]), key);
            out.TimedOut? ==>
              (ReadBack(d.body, key.params) == Seen(true) <==>
                 fault.TimeoutAfterApply? &&
                 !(doc.body.Entitlements? && key.params.kind == "revoke" &&
                   multiset(Held(doc.body, key.params.target.subject))[key.params.target.entitlement] > 1))
  {
    hide ReadBack, Changed, FaultKey;
    var fk := FaultKey(doc.body, key.params).value;
    var clean := doc.(faults := doc.faults - {fk});
    CleanWriteLands(clean, key);
    InjectedFaultFiresOnce(doc, key, fault);
  }
}
