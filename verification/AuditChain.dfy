/** The audit hash chain: every row's hash covers the previous hash and the row's own event, payload and time.

    The hash is any function whose digests are 64 lower-case hex digits. Nothing is assumed about collisions: where the
    argument needs the hash to separate two messages, the two messages are named. */
module AuditChain {
  import opened Models
  import opened JsonText
  import opened Canonical

  const GENESIS := "GENESIS"

  datatype Row = Row(seqNo: int, run: Option<RunId>, event: string, payload: Json, at: Instant, prevHash: string,
                     hash: string)

  predicate HexText(s: string) { forall i :: 0 <= i < |s| ==> '0' <= s[i] <= '9' || 'a' <= s[i] <= 'f' }

  /** A SHA-256 digest in hexadecimal, as far as its shape goes. */
  ghost predicate Digests(H: string -> string) { forall x :: |H(x)| == 64 && HexText(H(x)) }

  function BodyJson(event: string, payload: Json, at: Instant): Json {
    Json.Obj(map["event" := Json.Str(event), "payload" := payload, "at" := Json.Str(InstantText(at))])
  }

  function Message(prevHash: string, event: string, payload: Json, at: Instant): string {
    prevHash + Print(BodyJson(event, payload, at), Compact)
  }

  function ChainHash(H: string -> string, prevHash: string, event: string, payload: Json, at: Instant): string {
    H(Message(prevHash, event, payload, at))
  }

  function RowMessage(r: Row): string { Message(r.prevHash, r.event, r.payload, r.at) }

  /** Row i follows from the rows before it. */
  predicate LinkHolds(H: string -> string, rows: seq<Row>, i: nat)
    requires i < |rows|
  {
    && rows[i].prevHash == (if i == 0 then GENESIS else rows[i - 1].hash)
    && rows[i].hash == H(RowMessage(rows[i]))
  }

  predicate Accepted(H: string -> string, rows: seq<Row>) {
    forall i :: 0 <= i < |rows| ==> LinkHolds(H, rows, i)
  }

  datatype Reason = WrongPrevHash | WrongHash

  datatype ChainCheck = Intact(rows: nat) | Broken(rows: nat, firstBrokenSeq: int, reason: Reason)

  /** Recomputes every link. Everything before the reported row is an accepted chain, and that row breaks it. */
  method VerifyChain(H: string -> string, rows: seq<Row>) returns (r: ChainCheck)
    ensures r.Intact? <==> Accepted(H, rows)
    ensures r.Intact? ==> r.rows == |rows|
    ensures r.Broken? ==>
              && 1 <= r.rows <= |rows| && r.firstBrokenSeq == rows[r.rows - 1].seqNo
              && Accepted(H, rows[..r.rows - 1]) && !LinkHolds(H, rows, r.rows - 1)
              && (r.reason == WrongPrevHash <==>
                    rows[r.rows - 1].prevHash != (if r.rows == 1 then GENESIS else rows[r.rows - 2].hash))
  {
    hide Print, BodyJson;
    var prev, n := GENESIS, 0;
    for i := 0 to |rows|
      invariant n == i
      invariant prev == if i == 0 then GENESIS else rows[i - 1].hash
      invariant forall k :: 0 <= k < i ==> LinkHolds(H, rows, k)
    {
      n := n + 1;
      if rows[i].prevHash != prev {
        assert !LinkHolds(H, rows, i);
        PrefixAccepted(H, rows, i);
        return Broken(n, rows[i].seqNo, WrongPrevHash);
      }
      if ChainHash(H, rows[i].prevHash, rows[i].event, rows[i].payload, rows[i].at) != rows[i].hash {
        assert !LinkHolds(H, rows, i);
        PrefixAccepted(H, rows, i);
        return Broken(n, rows[i].seqNo, WrongHash);
      }
      prev := rows[i].hash;
    }
    return Intact(n);
  }

  lemma PrefixAccepted(H: string -> string, rows: seq<Row>, n: nat)
    requires n <= |rows| && forall k :: 0 <= k < n ==> LinkHolds(H, rows, k)
    ensures Accepted(H, rows[..n])
  {
    forall k | 0 <= k < n ensures LinkHolds(H, rows[..n], k) {
      assert LinkHolds(H, rows, k);
    }
  }

  // --- appending ------------------------------------------------------------------------------------------------

  datatype Entry = Entry(seqNo: int, run: Option<RunId>, event: string, payload: Json, at: Instant)

  function LastHash(rows: seq<Row>): string { if rows == [] then GENESIS else rows[|rows| - 1].hash }

  function Extended(H: string -> string, rows: seq<Row>, e: Entry): seq<Row> {
    var prev := LastHash(rows);
    rows + [Row(e.seqNo, e.run, e.event, e.payload, e.at, prev, ChainHash(H, prev, e.event, e.payload, e.at))]
  }

  function Built(H: string -> string, entries: seq<Entry>): seq<Row> {
    if entries == [] then [] else Extended(H, Built(H, entries[..|entries| - 1]), entries[|entries| - 1])
  }

  function Entries(rows: seq<Row>): seq<Entry> {
    seq(|rows|, i requires 0 <= i < |rows| => Entry(rows[i].seqNo, rows[i].run, rows[i].event, rows[i].payload, rows[i].at))
  }

  /** The single global chain. Appending takes the advisory lock, so calls are one after another. */
  class AuditTable {
    var rows: seq<Row>
    var nextSeq: int

    constructor ()
      ensures rows == [] && nextSeq == 1
    {
      rows, nextSeq := [], 1;
    }

    /** Outside a transaction nothing is written. */
    method Append(H: string -> string, inTransaction: bool, run: Option<RunId>, event: string, payload: Json, at: Instant)
      returns (ok: bool)
      modifies this
      ensures ok == inTransaction
      ensures !ok ==> rows == old(rows) && nextSeq == old(nextSeq)
      ensures ok ==> rows == Extended(H, old(rows), Entry(old(nextSeq), run, event, payload, at))
      ensures ok ==> nextSeq == old(nextSeq) + 1
      ensures Accepted(H, old(rows)) ==> Accepted(H, rows)
    {
      hide Print, BodyJson;
      if !inTransaction {
        return false;
      }
      var prev := if rows == [] then GENESIS else rows[|rows| - 1].hash;
      var digest := ChainHash(H, prev, event, payload, at);
      ghost var before := rows;
      rows := rows + [Row(nextSeq, run, event, payload, at, prev, digest)];
      nextSeq := nextSeq + 1;
      ExtendedIsAccepted(H, before, Entry(old(nextSeq), run, event, payload, at));
      return true;
    }
  }

  lemma ExtendedIsAccepted(H: string -> string, rows: seq<Row>, e: Entry)
    ensures Accepted(H, rows) <==> Accepted(H, Extended(H, rows, e))
  {
    hide Print, BodyJson;
    var all, n := Extended(H, rows, e), |rows|;
    assert forall i :: 0 <= i < n ==> LinkHolds(H, rows, i) == LinkHolds(H, all, i);
    assert LinkHolds(H, all, n);
  }

  lemma LastLink(H: string -> string, rows: seq<Row>)
    requires rows != []
    ensures var n := |rows| - 1;
            && (Accepted(H, rows) <==> Accepted(H, rows[..n]) && LinkHolds(H, rows, n))
            && (LinkHolds(H, rows, n) <==> rows == Extended(H, rows[..n], Entries(rows)[n]))
  {
    hide Print, BodyJson;
    var n := |rows| - 1;
    assert forall i :: 0 <= i < n ==> LinkHolds(H, rows, i) == LinkHolds(H, rows[..n], i);
    assert rows == rows[..n] + [rows[n]];
    assert rows[n] == Extended(H, rows[..n], Entries(rows)[n])[n] ==> rows == Extended(H, rows[..n], Entries(rows)[n]);
  }

  lemma ExtendedPrefix(H: string -> string, x: seq<Row>, e: Entry)
    ensures |Extended(H, x, e)| == |x| + 1 && Extended(H, x, e)[..|x|] == x
  {
  }

  /** Verification accepts exactly what appending can build. */
  lemma {:induction false} AcceptedIsBuilt(H: string -> string, rows: seq<Row>)
    ensures Accepted(H, rows) <==> rows == Built(H, Entries(rows))
    decreases |rows|
  {
    hide Accepted, LinkHolds, Extended;
    if rows == [] {
      EmptyIsAccepted(H);
    } else {
      var n := |rows| - 1;
      var head := rows[..n];
      assert Entries(head) == Entries(rows)[..n];
      AcceptedIsBuilt(H, head);
      LastLink(H, rows);
      ExtendedPrefix(H, Built(H, Entries(head)), Entries(rows)[n]);
    }
  }

  lemma EmptyIsAccepted(H: string -> string)
    ensures Accepted(H, [])
  {
  }

  // --- tamper evidence ------------------------------------------------------------------------------------------

  /** Everything the hash covers. */
  predicate SameContent(r: Row, s: Row) {
    r.event == s.event && r.payload == s.payload && r.at == s.at && r.prevHash == s.prevHash && r.hash == s.hash
  }

  ghost predicate SameChain(a: seq<Row>, b: seq<Row>) {
    |a| == |b| && forall i :: 0 <= i < |a| ==> SameContent(a[i], b[i])
  }

  /** A pair of different messages, one from each chain, that the hash confuses. */
  ghost predicate Confused(H: string -> string, a: seq<Row>, b: seq<Row>) {
    exists i, j :: 0 <= i < |a| && 0 <= j < |b| && Collides(H, RowMessage(a[i]), RowMessage(b[j]))
  }

  ghost predicate ValidTimes(rows: seq<Row>) { forall i :: 0 <= i < |rows| ==> rows[i].at.Valid() }

  /** A message splits into previous hash and body in one way only. */
  lemma MessageSplits(r: Row, s: Row)
    requires RowMessage(r) == RowMessage(s) && r.at.Valid() && s.at.Valid()
    requires (r.prevHash == GENESIS || (|r.prevHash| == 64 && HexText(r.prevHash)))
    requires (s.prevHash == GENESIS || (|s.prevHash| == 64 && HexText(s.prevHash)))
    ensures r.prevHash == s.prevHash && r.event == s.event && r.payload == s.payload && r.at == s.at
  {
    hide Print, InstantText, Instant.Valid;
    var x, y := BodyJson(r.event, r.payload, r.at), BodyJson(s.event, s.payload, s.at);
    assert RowMessage(r)[0] == r.prevHash[0] && RowMessage(s)[0] == s.prevHash[0];
    SplitAt(r.prevHash, s.prevHash, Print(x, Compact), Print(y, Compact));
    PrintIsInjective(x, y, Compact);
    assert x.fields["event"] == y.fields["event"] && x.fields["payload"] == y.fields["payload"] &&
           x.fields["at"] == y.fields["at"];
    InstantTextIsInjective(r.at, s.at);
  }

  lemma PrevHashShape(H: string -> string, rows: seq<Row>, i: nat)
    requires Digests(H) && Accepted(H, rows) && i < |rows|
    ensures |rows[i].hash| == 64 && HexText(rows[i].hash)
    ensures if i == 0 then rows[i].prevHash == GENESIS
            else rows[i].prevHash == rows[i - 1].hash && |rows[i].prevHash| == 64 && HexText(rows[i].prevHash)
  {
    hide RowMessage, HexText;
    assert LinkHolds(H, rows, i);
    if i > 0 {
      assert LinkHolds(H, rows, i - 1);
    }
  }

  /** The last rows of two accepted chains that end in the same hash are the same, unless the hash confused them. */
  lemma LastRowsAgree(H: string -> string, a: seq<Row>, b: seq<Row>)
    requires Digests(H) && Accepted(H, a) && Accepted(H, b) && ValidTimes(a) && ValidTimes(b)
    requires a != [] && b != [] && LastHash(a) == LastHash(b)
    ensures SameContent(a[|a| - 1], b[|b| - 1]) || Confused(H, a, b)
  {
    hide RowMessage, HexText, Instant.Valid;
    var m, n := |a| - 1, |b| - 1;
    assert LinkHolds(H, a, m) && LinkHolds(H, b, n);
    if RowMessage(a[m]) == RowMessage(b[n]) {
      PrevHashShape(H, a, m);
      PrevHashShape(H, b, n);
      MessageSplits(a[m], b[n]);
    } else {
      assert Collides(H, RowMessage(a[m]), RowMessage(b[n]));
    }
  }

  /** Tamper evidence: two accepted chains that end in the same hash have the same length and agree on every event,
      payload, time and hash; otherwise two messages that the hash confuses can be pointed at. */
  lemma {:induction false} ChainsAgree(H: string -> string, a: seq<Row>, b: seq<Row>)
    requires Digests(H) && Accepted(H, a) && Accepted(H, b) && ValidTimes(a) && ValidTimes(b)
    requires a != [] && b != [] && LastHash(a) == LastHash(b)
    ensures SameChain(a, b) || Confused(H, a, b)
    decreases |a|
  {
    hide RowMessage, HexText, LinkHolds;
    var m, n := |a| - 1, |b| - 1;
    LastRowsAgree(H, a, b);
    if SameContent(a[m], b[n]) {
      PrevHashShape(H, a, m);
      PrevHashShape(H, b, n);
      if m > 0 && n > 0 {
        var x, y := a[..m], b[..n];
        PrefixAccepted(H, a, m);
        PrefixAccepted(H, b, n);
        ChainsAgree(H, x, y);
        if Confused(H, x, y) {
          var i, j :| 0 <= i < |x| && 0 <= j < |y| && Collides(H, RowMessage(x[i]), RowMessage(y[j]));
          assert Collides(H, RowMessage(a[i]), RowMessage(b[j]));
        } else {
          assert forall i :: 0 <= i < m ==> a[i] == x[i] && b[i] == y[i];
        }
      }
    }
  }

  /** An edit anywhere in a chain whose last hash was kept is found by verification. */
  lemma EditsAreFound(H: string -> string, a: seq<Row>, b: seq<Row>)
    requires Digests(H) && Accepted(H, a) && ValidTimes(a) && ValidTimes(b)
    requires a != [] && b != [] && LastHash(a) == LastHash(b) && !SameChain(a, b) && !Confused(H, a, b)
    ensures !Accepted(H, b)
  {
    if Accepted(H, b) {
      ChainsAgree(H, a, b);
    }
  }

  /** What the hash does not cover: the run a row belongs to and its number can be changed at will. */
  lemma RunAndSeqAreNotCovered(H: string -> string, a: seq<Row>, b: seq<Row>)
    requires SameChain(a, b)
    ensures Accepted(H, a) <==> Accepted(H, b)
  {
    hide RowMessage;
    forall i | 0 <= i < |a| ensures LinkHolds(H, a, i) <==> LinkHolds(H, b, i) {
      assert SameContent(a[i], b[i]) && (i > 0 ==> SameContent(a[i - 1], b[i - 1]));
      SameMessage(a[i], b[i]);
    }
  }

  lemma SameMessage(r: Row, s: Row)
    requires SameContent(r, s)
    ensures RowMessage(r) == RowMessage(s)
  {
  }

  /** A chain cut short is still a chain: only its last hash tells. */
  lemma TruncationIsAccepted(H: string -> string, rows: seq<Row>, n: nat)
    requires Accepted(H, rows) && n <= |rows|
    ensures Accepted(H, rows[..n])
  {
    PrefixAccepted(H, rows, n);
  }
}
