/** The relay layer: row locks, what is on the stream, and the conservation of stream copies. */
module PublishInvariant {
  import opened Wrappers
  import opened Queueing
  import opened Fleet
  import opened Pipeline
  import opened PipelineInvariant

  // ---------- counting copies ----------

  lemma {:induction false} NoCopies(stream: seq<Entry>, e: EventId)
    requires forall i :: 0 <= i < |stream| ==> stream[i].origin != FromRelay(e)
    ensures Copies(stream, e) == 0
  {
    if stream != [] {
      NoCopies(stream[..|stream| - 1], e);
    }
  }

  lemma CopiesAppend(stream: seq<Entry>, entry: Entry, e: EventId)
    ensures Copies(stream + [entry], e) == Copies(stream, e) + (if entry.origin == FromRelay(e) then 1 else 0)
  {
    var t := stream + [entry];
    assert t[..|t| - 1] == stream;
  }

  /** Some copy exists exactly when the count is positive. */
  lemma {:induction false} CopyExists(stream: seq<Entry>, e: EventId)
    ensures Copies(stream, e) > 0 <==> exists i :: 0 <= i < |stream| && stream[i].origin == FromRelay(e)
  {
    if stream != [] {
      var k := |stream| - 1;
      var t := stream[..k];
      CopyExists(t, e);
      if Copies(t, e) > 0 {
        var i :| 0 <= i < |t| && t[i].origin == FromRelay(e);
        assert stream[i].origin == FromRelay(e);
      } else {
        assert forall i :: 0 <= i < k ==> stream[i] == t[i];
      }
    }
  }

  lemma {:induction false} DistinctCount<T>(xs: seq<T>, x: T)
    requires Distinct(xs)
    ensures multiset(xs)[x] == if x in xs then 1 else 0
  {
    if xs != [] {
      var k := |xs| - 1;
      assert xs == xs[..k] + [xs[k]];
      DistinctCount(xs[..k], x);
    }
  }

  // ---------- the API adds an outbox row ----------

  lemma OutboxGrows(s: State, e: EventId, row: OutboxRow)
    requires Published(s) && FreshEvent(s, e) && row.publicationAttempts == 0
    ensures RelaysOk(s.relays, s.db.outbox[e := row])
    ensures StreamOk(s.bus.stream, s.db.outbox[e := row])
    ensures CopiesOk(s.bus.stream, s.db.outbox[e := row], s.relays, s.aborted)
    ensures AbortedOk(s.aborted, s.db.outbox[e := row])
  {
    var outbox := s.db.outbox[e := row];
    forall p | p in s.relays ensures RelayOk(outbox, s.relays[p]) {
      assert RelayOk(s.db.outbox, s.relays[p]);
    }
    forall i | 0 <= i < |s.bus.stream|
      ensures EntryOk(outbox, s.bus.stream[i]) && s.bus.stream[i].origin != FromRelay(e)
    {
      assert EntryOk(s.db.outbox, s.bus.stream[i]);
    }
    NoCopies(s.bus.stream, e);
    forall p, i | p in s.relays && 0 <= i < |s.relays[p].rows| ensures s.relays[p].rows[i] != e {
      assert RelayOk(s.db.outbox, s.relays[p]) && s.relays[p].rows[i] in s.relays[p].rows;
    }
  }

  lemma ApiPublished(s: State, p: Proc, a: ApiAction)
    requires Published(s) && ApiEnabled(s, p, a)
    ensures Published(ApiNext(s, p, a))
  {
    match a
    case DoApiCommit(e, createdAt, correlation) =>
      OutboxGrows(s, e, OutboxRowOf(s.apis[p].batch, createdAt, correlation));
    case _ =>
  }

  // ---------- publish_once ----------

  lemma LockRelays(s: State, p: Proc, rows: seq<EventId>)
    requires RelaysOk(s.relays, s.db.outbox) && CanRelayLock(s, p, rows)
    ensures RelaysOk(s.relays[p := RelayTxn(rows, 0)], s.db.outbox)
  {
    var relays := s.relays[p := RelayTxn(rows, 0)];
    forall q, e | q in s.relays && e in s.relays[q].rows ensures e !in rows {
      assert RowLocked(s.relays, e);
    }
    forall q | q in relays ensures RelayOk(s.db.outbox, relays[q]) {
      assert q != p ==> RelayOk(s.db.outbox, s.relays[q]);
    }
  }

  /** A transaction that has sent nothing puts nothing in flight. */
  lemma LockInFlight(relays: map<Proc, RelayTxn>, p: Proc, rows: seq<EventId>, e: EventId)
    requires p !in relays
    ensures InFlight(relays[p := RelayTxn(rows, 0)], e) <==> InFlight(relays, e)
  {
    var relays' := relays[p := RelayTxn(rows, 0)];
    if InFlight(relays, e) {
      var q, i :| q in relays && 0 <= i < relays[q].sent && i < |relays[q].rows| && relays[q].rows[i] == e;
      assert relays'[q].rows[i] == e;
    }
    if InFlight(relays', e) {
      var q, i :| q in relays' && 0 <= i < relays'[q].sent && i < |relays'[q].rows| && relays'[q].rows[i] == e;
      assert relays[q].rows[i] == e;
    }
  }

  lemma LockPublished(s: State, p: Proc, rows: seq<EventId>)
    requires Published(s) && CanRelayLock(s, p, rows)
    ensures Published(RelayLock(s, p, rows))
  {
    LockRelays(s, p, rows);
    forall e | e in s.db.outbox ensures InFlight(s.relays[p := RelayTxn(rows, 0)], e) <==> InFlight(s.relays, e) {
      LockInFlight(s.relays, p, rows, e);
    }
  }

  /** XADD puts exactly the row it sends in flight, and that row was not in flight before. */
  lemma XaddInFlight(relays: map<Proc, RelayTxn>, outbox: map<EventId, OutboxRow>, p: Proc, e: EventId)
    requires RelaysOk(relays, outbox)
    requires p in relays && relays[p].sent < |relays[p].rows|
    ensures var now := relays[p].rows[relays[p].sent];
            && (InFlight(relays[p := relays[p].(sent := relays[p].sent + 1)], e) <==> InFlight(relays, e) || e == now)
            && !InFlight(relays, now)
  {
    var txn := relays[p];
    var relays' := relays[p := txn.(sent := txn.sent + 1)];
    var now := txn.rows[txn.sent];
    assert RelayOk(outbox, txn) && now in txn.rows;
    assert InFlight(relays', now) by {
      assert relays'[p].rows[txn.sent] == now;
    }
    if InFlight(relays, e) {
      var q, i :| q in relays && 0 <= i < relays[q].sent && i < |relays[q].rows| && relays[q].rows[i] == e;
      assert relays'[q].rows[i] == e;
      assert e in relays[q].rows;
    }
    if InFlight(relays', e) {
      var q, i :| q in relays' && 0 <= i < relays'[q].sent && i < |relays'[q].rows| && relays'[q].rows[i] == e;
      if !(q == p && i == txn.sent) {
        assert relays[q].rows[i] == e;
      }
    }
    forall q, i | q in relays && 0 <= i < relays[q].sent && i < |relays[q].rows| ensures relays[q].rows[i] != now {
      assert relays[q].rows[i] in relays[q].rows;
    }
  }

  lemma RelaySent(relays: map<Proc, RelayTxn>, outbox: map<EventId, OutboxRow>, p: Proc)
    requires RelaysOk(relays, outbox)
    requires p in relays && relays[p].sent < |relays[p].rows|
    ensures RelaysOk(relays[p := relays[p].(sent := relays[p].sent + 1)], outbox)
  {
    var relays' := relays[p := relays[p].(sent := relays[p].sent + 1)];
    forall q | q in relays' ensures RelayOk(outbox, relays'[q]) {
      assert RelayOk(outbox, relays[q]);
    }
    forall q | q in relays' ensures relays'[q].rows == relays[q].rows {
    }
  }

  lemma XaddCopies(s: State, p: Proc)
    requires RelaysOk(s.relays, s.db.outbox) && CopiesOk(s.bus.stream, s.db.outbox, s.relays, s.aborted) && CanRelayXadd(s, p)
    ensures var t := RelayXadd(s, p); CopiesOk(t.bus.stream, s.db.outbox, t.relays, s.aborted)
  {
    var txn := s.relays[p];
    var now := txn.rows[txn.sent];
    var entry := Entry(FieldsOf(now, s.db.outbox[now]), FromRelay(now));
    forall e | e in s.db.outbox
      ensures Copies(s.bus.stream + [entry], e)
              == s.db.outbox[e].publicationAttempts + s.aborted[e]
                 + (if InFlight(s.relays[p := txn.(sent := txn.sent + 1)], e) then 1 else 0)
    {
      CopiesAppend(s.bus.stream, entry, e);
      XaddInFlight(s.relays, s.db.outbox, p, e);
    }
  }

  lemma XaddPublished(s: State, p: Proc)
    requires Published(s) && CanRelayXadd(s, p)
    ensures Published(RelayXadd(s, p))
  {
    RelaySent(s.relays, s.db.outbox, p);
    XaddCopies(s, p);
  }

  /** Ending a transaction takes exactly the rows it had sent out of flight. */
  lemma EndInFlight(relays: map<Proc, RelayTxn>, outbox: map<EventId, OutboxRow>, p: Proc, e: EventId)
    requires RelaysOk(relays, outbox)
    requires p in relays
    ensures relays[p].sent <= |relays[p].rows|
    ensures InFlight(relays, e) <==> InFlight(relays - {p}, e) || e in relays[p].rows[..relays[p].sent]
    ensures e in relays[p].rows ==> !InFlight(relays - {p}, e)
  {
    var txn := relays[p];
    var rest := relays - {p};
    assert RelayOk(outbox, txn);
    if e in txn.rows[..txn.sent] {
      var i :| 0 <= i < txn.sent && txn.rows[i] == e;
      assert relays[p].rows[i] == e;
    }
    if InFlight(rest, e) {
      var q, i :| q in rest && 0 <= i < rest[q].sent && i < |rest[q].rows| && rest[q].rows[i] == e;
      assert relays[q].rows[i] == e && e in relays[q].rows;
    }
    if InFlight(relays, e) {
      var q, i :| q in relays && 0 <= i < relays[q].sent && i < |relays[q].rows| && relays[q].rows[i] == e;
      if q == p {
        assert txn.rows[..txn.sent][i] == e;
      } else {
        assert rest[q].rows[i] == e;
      }
    }
  }

  lemma MarkPublishedRelays(relays: map<Proc, RelayTxn>, outbox: map<EventId, OutboxRow>, p: Proc, at: int)
    requires RelaysOk(relays, outbox) && p in relays
    ensures RelaysOk(relays - {p}, MarkPublished(outbox, relays[p].rows, at))
  {
    var outbox' := MarkPublished(outbox, relays[p].rows, at);
    var rest := relays - {p};
    forall q | q in rest ensures RelayOk(outbox', rest[q]) {
      assert RelayOk(outbox, relays[q]);
      forall e | e in rest[q].rows ensures Unpublished(outbox', e) {
        assert Unpublished(outbox, e) && e !in relays[p].rows;
      }
    }
  }

  lemma MarkPublishedStream(stream: seq<Entry>, outbox: map<EventId, OutboxRow>, rows: seq<EventId>, at: int)
    requires StreamOk(stream, outbox)
    ensures StreamOk(stream, MarkPublished(outbox, rows, at))
  {
    var outbox' := MarkPublished(outbox, rows, at);
    forall i | 0 <= i < |stream| ensures EntryOk(outbox', stream[i]) {
      assert EntryOk(outbox, stream[i]);
    }
  }

  lemma CommitPublished(s: State, p: Proc, at: int)
    requires Published(s) && CanRelayCommit(s, p)
    ensures Published(RelayCommit(s, p, at))
  {
    var rows := s.relays[p].rows;
    var outbox := MarkPublished(s.db.outbox, rows, at);
    assert RelayOk(s.db.outbox, s.relays[p]);
    assert rows[..|rows|] == rows;
    MarkPublishedRelays(s.relays, s.db.outbox, p, at);
    MarkPublishedStream(s.bus.stream, s.db.outbox, rows, at);
    forall e | e in outbox
      ensures Copies(s.bus.stream, e)
              == outbox[e].publicationAttempts + s.aborted[e] + (if InFlight(s.relays - {p}, e) then 1 else 0)
    {
      EndInFlight(s.relays, s.db.outbox, p, e);
    }
  }

  lemma AbortPublished(s: State, p: Proc)
    requires Published(s) && CanRelayAbort(s, p)
    ensures Published(RelayAbort(s, p))
  {
    var txn := s.relays[p];
    assert RelayOk(s.db.outbox, txn);
    var t := RelayAbort(s, p);
    forall q | q in t.relays ensures RelayOk(s.db.outbox, t.relays[q]) {
      assert RelayOk(s.db.outbox, s.relays[q]);
    }
    forall e ensures t.aborted[e] == s.aborted[e] + (if e in txn.rows[..txn.sent] then 1 else 0) {
      DistinctCount(txn.rows[..txn.sent], e);
    }
    forall e | e in t.aborted ensures e in s.db.outbox {
      if e !in s.aborted {
        assert e in txn.rows && Unpublished(s.db.outbox, e);
      }
    }
    forall e | e in s.db.outbox
      ensures Copies(s.bus.stream, e)
              == s.db.outbox[e].publicationAttempts + t.aborted[e] + (if InFlight(t.relays, e) then 1 else 0)
    {
      EndInFlight(s.relays, s.db.outbox, p, e);
    }
  }

  lemma RelayPublished(s: State, p: Proc, a: RelayAction)
    requires Published(s) && RelayEnabled(s, p, a)
    ensures Published(RelayNext(s, p, a))
  {
    match a
    case DoLock(rows) => LockPublished(s, p, rows);
    case DoXadd => XaddPublished(s, p);
    case DoRelayCommit(at) => CommitPublished(s, p, at);
    case DoRelayAbort => AbortPublished(s, p);
  }

  lemma InjectPublished(s: State, f: Fields)
    requires Published(s) && CanInject(s, f)
    ensures Published(Inject(s, f))
  {
    var entry := Entry(f, Foreign);
    forall e | e in s.db.outbox ensures Copies(s.bus.stream + [entry], e) == Copies(s.bus.stream, e) {
      CopiesAppend(s.bus.stream, entry, e);
    }
  }

  /** Every step keeps the relay layer. */
  lemma PublishedStep(c: Config, s: State, a: Step)
    requires Published(s) && Enabled(s, a)
    ensures Published(Next(c, s, a))
  {
    match a
    case Api(p, x) => ApiPublished(s, p, x);
    case Relay(p, x) => RelayPublished(s, p, x);
    case Deliver(p, x) => DeliveryFrame(c, s, p, x);
    case Process(p, x) => ProcessFrame(c, s, p, x);
    case Read(p, x) => ReaderFrame(s, p, x);
    case Environment(f) => InjectPublished(s, f);
    case Expire =>
  }
}
