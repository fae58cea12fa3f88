/** The two ends of the upload as programs: upload_once (backend/runner/runtime.py) over the store, and ingest
(backend/app/services/ingest.py) over what the server remembers of a runner.  What they do together is a run of the
protocol. */
module UploadPrograms {
  import opened Common
  import opened Outbox
  import opened UploadProtocol

  // ---------------------------------------------------------------- the server end

  function InsertByNumber(x: Row, rows: seq<Row>): seq<Row> {
    if rows == [] || x.num <= rows[0].num then [x] + rows else [rows[0]] + InsertByNumber(x, rows[1..])
  }

  /** The batch in the order of its numbers; rows with the same number stay in the order they came in. */
  function ByNumber(rows: seq<Row>): seq<Row> {
    if rows == [] then [] else InsertByNumber(rows[0], ByNumber(rows[1..]))
  }

  ghost predicate Ordered(rows: seq<Row>) {
    forall i, j :: 0 <= i < j < |rows| ==> rows[i].num <= rows[j].num
  }

  lemma {:induction false} InsertAdds(x: Row, rows: seq<Row>)
    ensures multiset(InsertByNumber(x, rows)) == multiset(rows) + multiset{x}
  {
    if rows != [] && x.num > rows[0].num {
      InsertAdds(x, rows[1..]);
      assert rows == [rows[0]] + rows[1..];
    }
  }

  lemma {:induction false} InsertKeepsOrder(x: Row, rows: seq<Row>)
    requires Ordered(rows)
    ensures Ordered(InsertByNumber(x, rows))
  {
    if rows != [] && x.num > rows[0].num {
      InsertKeepsOrder(x, rows[1..]);
      InsertAdds(x, rows[1..]);
      var r := InsertByNumber(x, rows[1..]);
      forall i | 0 <= i < |r| ensures rows[0].num <= r[i].num {
        assert r[i] in multiset(r);
        assert r[i] == x || r[i] in rows[1..];
      }
    }
  }

  lemma {:induction false} ByNumberSorts(rows: seq<Row>)
    ensures Ordered(ByNumber(rows)) && multiset(ByNumber(rows)) == multiset(rows)
  {
    if rows != [] {
      ByNumberSorts(rows[1..]);
      InsertKeepsOrder(rows[0], ByNumber(rows[1..]));
      InsertAdds(rows[0], ByNumber(rows[1..]));
      assert rows == [rows[0]] + rows[1..];
    }
  }

  /** Batches read from an outbox are in that order already. */
  lemma {:induction false} SortedAlready(rows: seq<Row>)
    requires Increasing(rows)
    ensures ByNumber(rows) == rows
  {
    if rows != [] {
      FirstIsLeast(rows);
      SortedAlready(rows[1..]);
      assert rows == [rows[0]] + rows[1..];
      assert rows[1..] != [] ==> rows[1..][0] in rows[1..];
    }
  }

  lemma {:induction false} OrderedIsTaken(rows: seq<Row>, last: nat, x: Row)
    requires Ordered(rows) && x in rows
    ensures x.num <= Watermark(rows, last)
    ensures x.num > last ==> exists y :: y in Fresh(rows, last) && y.num == x.num
  {
    var next := if rows[0].num <= last then last else rows[0].num;
    FreshIsNew(rows[1..], next);
    if x in rows[1..] {
      OrderedIsTaken(rows[1..], next, x);
      assert x in rows[1..];
      var i :| 0 <= i < |rows| - 1 && rows[i + 1] == x;
      assert rows[0].num <= rows[i + 1].num;
    }
  }

  /** In whatever order a batch comes, each of its numbers above the watermark is handled; the sort is what it takes, as a
      higher number handled first would hide the others. */
  lemma EveryNewNumberIsHandled(server: Server, run: string, rows: seq<Row>, x: Row)
    requires x in rows
    ensures var after := Ingested(server, run, ByNumber(rows));
            && x.num <= after.last
            && (x.num > Effective(server, run) ==> exists y :: y in after.handled && y in rows && y.num == x.num)
  {
    var sorted, last := ByNumber(rows), Effective(server, run);
    ByNumberSorts(rows);
    assert x in multiset(sorted);
    OrderedIsTaken(sorted, last, x);
    if x.num > last {
      var y :| y in Fresh(sorted, last) && y.num == x.num;
      FreshIsPart(sorted, last);
      assert y in multiset(rows);
      assert y in Ingested(server, run, sorted).handled;
    }
  }

  lemma {:induction false} FreshIsPart(rows: seq<Row>, last: nat)
    ensures forall y :: y in Fresh(rows, last) ==> y in rows
  {
    if rows != [] { FreshIsPart(rows[1..], if rows[0].num <= last then last else rows[0].num); }
  }

  /** The rows of the list that the handler can process. */
  function Processed(rows: seq<Row>, handles: Row -> bool): seq<Row> {
    if rows == [] then []
    else (if handles(rows[0]) then [rows[0]] else []) + Processed(rows[1..], handles)
  }

  lemma {:induction false} OneMoreProcessed(a: seq<Row>, x: Row, b: seq<Row>, handles: Row -> bool)
    ensures |Processed(a + [x] + b, handles)| == |Processed(a + b, handles)| + if handles(x) then 1 else 0
  {
    if a == [] {
      assert ([] + [x] + b)[1..] == b && [] + b == b;
    } else {
      assert (a + [x] + b)[1..] == a[1..] + [x] + b && (a + b)[1..] == a[1..] + b;
      OneMoreProcessed(a[1..], x, b, handles);
    }
  }

  datatype EventAck = EventAck(last: nat, accepted: nat, skipped: nat)

  /** The variables of the ingest loop. */
  datatype Tally = Tally(done: seq<Row>, high: nat, accepted: nat, skipped: nat)

  function Count(t: Tally, row: Row, handles: Row -> bool): Tally {
    if row.num <= t.high then t.(skipped := t.skipped + 1)
    else if handles(row) then Tally(t.done + [row], row.num, t.accepted + 1, t.skipped)
    else Tally(t.done + [row], row.num, t.accepted, t.skipped + 1)
  }

  function CountAll(t: Tally, rows: seq<Row>, handles: Row -> bool): Tally
    decreases |rows|
  {
    if rows == [] then t else CountAll(Count(t, rows[0], handles), rows[1..], handles)
  }

  lemma {:induction false} CountedRows(t: Tally, rows: seq<Row>, handles: Row -> bool)
    ensures var r := CountAll(t, rows, handles);
            && r.done == t.done + Fresh(rows, t.high) && r.high == Watermark(rows, t.high)
            && r.accepted == t.accepted + |Processed(Fresh(rows, t.high), handles)|
            && r.accepted + r.skipped == t.accepted + t.skipped + |rows|
    decreases |rows|
  {
    if rows != [] {
      CountedRows(Count(t, rows[0], handles), rows[1..], handles);
      if rows[0].num > t.high {
        var rest := Fresh(rows[1..], rows[0].num);
        assert ([rows[0]] + rest)[1..] == rest;
        assert t.done + ([rows[0]] + rest) == t.done + [rows[0]] + rest;
      }
    }
  }

  class ControlPlane {
    var lastRun: string
    var last: nat
    var handled: seq<Row>

    ghost function Memory(): Server
      reads this
    {
      Server(lastRun, last, handled)
    }

    constructor ()
      ensures Memory() == Server("", 0, [])
    {
      lastRun, last, handled := "", 0, [];
    }

    /** A row that the handler refuses or chokes on counts as skipped; it moves the watermark like any other. */
    method Ingest(run: string, rows: seq<Row>, handles: Row -> bool) returns (ack: EventAck)
      modifies this
      ensures Memory() == Ingested(old(Memory()), run, ByNumber(rows))
      ensures ack.last == last && ack.accepted + ack.skipped == |rows|
      ensures ack.accepted == |Processed(Fresh(ByNumber(rows), Effective(old(Memory()), run)), handles)|
    {
      var high: nat := if run != "" && run != lastRun then 0 else last;
      if run != "" { lastRun := run; }
      var sorted, i, done, accepted, skipped := ByNumber(rows), 0, handled, 0, 0;
      ghost var goal := CountAll(Tally(done, high, 0, 0), sorted, handles);
      CountedRows(Tally(done, high, 0, 0), sorted, handles);
      SameLength(rows);
      while i < |sorted|
        invariant 0 <= i <= |sorted| && CountAll(Tally(done, high, accepted, skipped), sorted[i..], handles) == goal
      {
        var row := sorted[i];
        assert sorted[i..][1..] == sorted[i + 1..];
        i := i + 1;
        if row.num <= high {
          skipped := skipped + 1;
          continue;
        }
        done := done + [row];
        if handles(row) { accepted := accepted + 1; } else { skipped := skipped + 1; }
        high := row.num;
      }
      handled, last := done, high;
      ack := EventAck(last, accepted, skipped);
    }
  }

  lemma SameLength(rows: seq<Row>)
    ensures |ByNumber(rows)| == |rows|
  {
    ByNumberSorts(rows);
    assert |multiset(ByNumber(rows))| == |ByNumber(rows)| && |multiset(rows)| == |rows|;
  }

  // ---------------------------------------------------------------- the runner's end

  /** What becomes of one post: the server answers, the request never arrives, the response never arrives, or the server
      refuses the runner. */
  datatype Outcome = Accepted | RequestLost | ResponseLost | Refused

  /** The store and the server are the two ends of the protocol state s. */
  ghost predicate Holds(store: LocalStore, plane: ControlPlane, s: State)
    reads store, plane
  {
    store.Valid() && s.table == store.Queue() && s.server == plane.Memory()
  }

  function FirstBatch(rows: seq<Row>): seq<Row> { if |rows| <= BATCH_LIMIT then rows else rows[..BATCH_LIMIT] }

  /** The server after one post of the pending rows. */
  function AfterPost(server: Server, run: string, rows: seq<Row>, outcome: Outcome): Server {
    if rows != [] && (outcome == Accepted || outcome == ResponseLost) then Ingested(server, run, FirstBatch(rows)) else server
  }

  function Acked(rows: seq<Row>, outcome: Outcome): (n: nat)
    ensures n <= |rows|
  {
    if outcome == Accepted then |FirstBatch(rows)| else 0
  }

  /** The protocol steps of one post of a batch. */
  function PostSteps(batch: nat, outcome: Outcome): seq<Step> {
    match outcome
    case Accepted => Round(batch)
    case ResponseLost => [ReadBatch, Deliver(batch)]
    case _ => [ReadBatch]
  }

  lemma AfterSteps(run: string, s: State, outcome: Outcome)
    requires s.table.rows != [] && Increasing(s.table.rows)
    ensures var s', rows := Exec(run, s, PostSteps(|s.sent|, outcome)), s.table.rows;
            s'.table == s.table.(rows := rows[Acked(rows, outcome)..]) && s'.server == AfterPost(s.server, run, rows, outcome)
    ensures NoLegacyBatch(PostSteps(|s.sent|, outcome))
  {
    RoundSteps(run, s, FirstBatch(s.table.rows));
    FirstBatchIsFront(s.table);
    assert s.table.rows[0..] == s.table.rows;
  }

  lemma FirstBatchIsFront(t: Table)
    requires t.rows != [] && Increasing(t.rows)
    ensures var rows := FirstBatch(t.rows);
            && rows != [] && Pending(t, BATCH_LIMIT) == rows && ByNumber(rows) == rows
            && Ack(t, Top(rows)) == t.(rows := t.rows[|rows|..])
  {
    SortedAlready(FirstBatch(t.rows));
    AckTakesBatch(t.rows, |FirstBatch(t.rows)|);
  }

  /** One round of upload_once: read a batch, post it, and ack it once the server has answered. */
  method PostBatch(store: LocalStore, plane: ControlPlane, run: string, outcome: Outcome, handles: Row -> bool,
                   ghost s: State)
    returns (acked: nat, ghost steps: seq<Step>)
    requires Holds(store, plane, s)
    modifies store`outbox, plane
    ensures Holds(store, plane, Exec(run, s, steps)) && NoLegacyBatch(steps)
    ensures acked == Acked(old(store.outbox), outcome) && store.outbox == old(store.outbox)[acked..]
    ensures plane.Memory() == AfterPost(old(plane.Memory()), run, old(store.outbox), outcome)
  {
    var rows := store.OutboxPending(BATCH_LIMIT);
    acked, steps := 0, [];
    if rows == [] { return; }
    AfterSteps(run, s, outcome);
    FirstBatchIsFront(s.table);
    steps := PostSteps(|s.sent|, outcome);
    if outcome == Accepted || outcome == ResponseLost {
      var ack := plane.Ingest(run, rows, handles);
    }
    if outcome == Accepted {
      store.OutboxAck(rows[|rows| - 1].num);
      acked := |rows|;
    }
  }

  /** The two ends and what the call reports. */
  datatype Upload = Upload(server: Server, rows: seq<Row>, total: nat, revoked: bool)

  /** What the call comes to from its k-th post on, with total rows uploaded before; the network says what becomes of each
      post that the batch limit allows. */
  function Uploading(server: Server, rows: seq<Row>, run: string, network: seq<Outcome>, k: nat, total: nat): Upload
    decreases |network| - k
  {
    if k >= |network| || rows == [] then Upload(server, rows, total, false)
    else
      var after, n := AfterPost(server, run, rows, network[k]), Acked(rows, network[k]);
      if network[k] != Accepted then Upload(after, rows, total, network[k] == Refused)
      else Uploading(after, rows[n..], run, network, k + 1, total + n)
  }

  /** Whatever the network does, the rows uploaded have left the front of the queue and no others. */
  lemma {:induction false} UploadTakesTheFront(server: Server, rows: seq<Row>, run: string, network: seq<Outcome>, k: nat,
                                               total: nat)
    ensures var u := Uploading(server, rows, run, network, k, total);
            total <= u.total <= total + |rows| && u.rows == rows[u.total - total..]
    decreases |network| - k
  {
    if k < |network| && rows != [] && network[k] == Accepted {
      var n := |FirstBatch(rows)|;
      UploadTakesTheFront(AfterPost(server, run, rows, Accepted), rows[n..], run, network, k + 1, total + n);
      var u := Uploading(server, rows, run, network, k, total);
      assert rows[n..][u.total - (total + n)..] == rows[u.total - total..];
    }
  }

  /** An undisturbed call drains a queue that fits into the batches it may post, and takes that many from a longer one. */
  lemma {:induction false} UndisturbedUploadDrains(server: Server, rows: seq<Row>, run: string, network: seq<Outcome>, k: nat,
                                                   total: nat)
    requires k <= |network| && forall i :: k <= i < |network| ==> network[i] == Accepted
    ensures var u, room := Uploading(server, rows, run, network, k, total), BATCH_LIMIT * (|network| - k);
            !u.revoked && u.total == total + if |rows| <= room then |rows| else room
    decreases |network| - k
  {
    if k < |network| && rows != [] {
      var n := |FirstBatch(rows)|;
      UndisturbedUploadDrains(AfterPost(server, run, rows, Accepted), rows[n..], run, network, k + 1, total + n);
    }
  }

  /** The two ends are where these steps lead from s. */
  ghost predicate ReachedBy(store: LocalStore, plane: ControlPlane, run: string, s: State, steps: seq<Step>)
    reads store, plane
  {
    Holds(store, plane, Exec(run, s, steps)) && NoLegacyBatch(steps)
  }

  /** What remains to be done after the k-th post. */
  lemma UploadingNext(server: Server, rows: seq<Row>, run: string, network: seq<Outcome>, k: nat, total: nat,
                      after: Server, left: seq<Row>, sum: nat)
    requires k < |network| && rows != [] && after == AfterPost(server, run, rows, network[k])
    requires left == rows[Acked(rows, network[k])..] && sum == total + Acked(rows, network[k])
    ensures Uploading(server, rows, run, network, k, total)
         == if network[k] == Accepted then Uploading(after, left, run, network, k + 1, sum)
            else Upload(after, left, sum, network[k] == Refused)
  {
  }

  /** One round after the given steps. */
  method RoundAfter(store: LocalStore, plane: ControlPlane, run: string, outcome: Outcome, handles: Row -> bool,
                   ghost s: State, ghost before: seq<Step>)
    returns (acked: nat, ghost steps: seq<Step>)
    requires ReachedBy(store, plane, run, s, before)
    modifies store`outbox, plane
    ensures ReachedBy(store, plane, run, s, steps)
    ensures acked == Acked(old(store.outbox), outcome) && store.outbox == old(store.outbox)[acked..]
    ensures plane.Memory() == AfterPost(old(plane.Memory()), run, old(store.outbox), outcome)
  {
    ghost var more;
    acked, more := PostBatch(store, plane, run, outcome, handles, Exec(run, s, before));
    RunsJoin(run, s, before, more);
    steps := before + more;
  }

  lemma RunsJoin(run: string, s: State, a: seq<Step>, b: seq<Step>)
    requires NoLegacyBatch(a) && NoLegacyBatch(b)
    ensures NoLegacyBatch(a + b) && Exec(run, s, a + b) == Exec(run, Exec(run, s, a), b)
  {
    ExecJoin(run, s, a, b);
  }

  /** The k-th round of a call. */
  method NextRound(store: LocalStore, plane: ControlPlane, run: string, network: seq<Outcome>, k: nat, total: nat,
                   handles: Row -> bool, ghost s: State, ghost before: seq<Step>)
    returns (sum: nat, ghost steps: seq<Step>)
    requires ReachedBy(store, plane, run, s, before) && k < |network| && store.outbox != []
    modifies store`outbox, plane
    ensures ReachedBy(store, plane, run, s, steps)
    ensures Uploading(old(plane.Memory()), old(store.outbox), run, network, k, total)
         == if network[k] == Accepted then Uploading(plane.Memory(), store.outbox, run, network, k + 1, sum)
            else Upload(plane.Memory(), store.outbox, sum, network[k] == Refused)
  {
    var acked;
    acked, steps := RoundAfter(store, plane, run, network[k], handles, s, before);
    sum := total + acked;
    UploadingNext(old(plane.Memory()), old(store.outbox), run, network, k, total, plane.Memory(), store.outbox, sum);
  }

  /** upload_once.  Its effect on the store and on the server is a run of the protocol, which the ghost result records, and
      the one the network's behaviour decides. */
  method UploadOnce(store: LocalStore, plane: ControlPlane, run: string, network: seq<Outcome>, handles: Row -> bool,
                    ghost s: State)
    returns (total: nat, revoked: bool, ghost steps: seq<Step>)
    requires Holds(store, plane, s)
    modifies store`outbox, plane
    ensures ReachedBy(store, plane, run, s, steps)
    ensures Upload(plane.Memory(), store.outbox, total, revoked)
         == Uploading(old(plane.Memory()), old(store.outbox), run, network, 0, 0)
  {
    total, revoked, steps := 0, false, [];
    assert Exec(run, s, []) == s;
    ghost var goal := Uploading(plane.Memory(), store.outbox, run, network, 0, 0);
    var k := 0;
    while k < |network| && store.outbox != []
      invariant k <= |network| && !revoked && ReachedBy(store, plane, run, s, steps)
      invariant Uploading(plane.Memory(), store.outbox, run, network, k, total) == goal
    {
      total, steps := NextRound(store, plane, run, network, k, total, handles, s, steps);
      if network[k] != Accepted {
        revoked := network[k] == Refused;
        return;
      }
      k := k + 1;
    }
  }
}
