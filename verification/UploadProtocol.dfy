/** From the runner's outbox to the control plane: upload_once (backend/runner/runtime.py) against a server that ingests
batches behind a per-run watermark (ingest in backend/app/services/ingest.py), and that no event is lost on the way. */
module UploadProtocol {
  // The network is adversarial: a batch may arrive late, any number of times or never, its response may be lost, events
  // are added while batches are under way, several uploaders may work on one store, and the runner may restart at any
  // moment (it then simply forgets what was under way; the store is durable).

  import opened Common
  import opened Outbox

  const BATCH_LIMIT := 100

  // ---------------------------------------------------------------- the server

  /** The server's memory of one runner: the run it last heard from, the highest number ingested in that run, and the
      rows of this store handed to the event handler, in order. */
  datatype Server = Server(lastRun: string, last: nat, handled: seq<Row>)

  /** The rows of a batch that are above the watermark, which moves up with each of them. */
  function Fresh(rows: seq<Row>, last: nat): seq<Row> {
    if rows == [] then []
    else if rows[0].num <= last then Fresh(rows[1..], last)
    else [rows[0]] + Fresh(rows[1..], rows[0].num)
  }

  function Watermark(rows: seq<Row>, last: nat): nat {
    if rows == [] then last else Watermark(rows[1..], if rows[0].num <= last then last else rows[0].num)
  }

  /** The watermark that applies to a batch of the given run: a new run id starts a new number space.  A batch of a
      legacy runner carries no run id and is compared as if it belonged to the run last heard from. */
  function Effective(server: Server, run: string): nat {
    if run != "" && run != server.lastRun then 0 else server.last
  }

  function Ingested(server: Server, run: string, rows: seq<Row>): Server {
    var last := Effective(server, run);
    Server(if run != "" then run else server.lastRun, Watermark(rows, last), server.handled + Fresh(rows, last))
  }

  // ---------------------------------------------------------------- the system

  /** added is the full log of events; sent holds every batch ever read for upload, delivered the indices of those that
      reached the server at least once. */
  datatype State = State(table: Table, added: seq<Row>, sent: seq<seq<Row>>, delivered: set<nat>, server: Server)

  datatype Step =
    | AddEvent(event: Event, key: Option<string>)
    | ReadBatch                         // an uploader reads its next batch
    | Deliver(batch: nat)               // the server receives that batch (again)
    | Acknowledge(batch: nat)           // a response to it arrives and the uploader acks
    | OtherRun(run: string, last: nat)  // a batch of another run of the same runner leaves its own watermark
    | LegacyBatch(last: nat)            // a batch without a run id raises the watermark

  function Apply(run: string, s: State, step: Step): State {
    match step
    case AddEvent(event, key) =>
      s.(table := Add(s.table, event, key), added := s.added + [Row(s.table.next, key, event)])
    case ReadBatch =>
      var rows := Pending(s.table, BATCH_LIMIT);
      if rows == [] then s else s.(sent := s.sent + [rows])
    case Deliver(i) =>
      if i < |s.sent| then s.(server := Ingested(s.server, run, s.sent[i]), delivered := s.delivered + {i}) else s
    case Acknowledge(i) =>
      if i in s.delivered && i < |s.sent| && s.sent[i] != [] then s.(table := Ack(s.table, Top(s.sent[i]))) else s
    case OtherRun(other, last) =>
      if other == run || other == "" then s else s.(server := s.server.(lastRun := other, last := last))
    case LegacyBatch(last) =>
      if last <= s.server.last then s else s.(server := s.server.(last := last))
  }

  function Top(batch: seq<Row>): nat
    requires batch != []
  {
    batch[|batch| - 1].num
  }

  function Exec(run: string, s: State, steps: seq<Step>): State {
    if steps == [] then s else Apply(run, Exec(run, s, steps[..|steps| - 1]), steps[|steps| - 1])
  }

  /** A new store meets a server that may remember any watermark of an earlier run. */
  function Start(lastRun: string, last: nat): State {
    State(EMPTY, [], [], {}, Server(lastRun, last, []))
  }

  // ---------------------------------------------------------------- no event is lost

  /** A later event with the same dedupe key was added. */
  ghost predicate Superseded(added: seq<Row>, r: Row) {
    Coalesces(r.key) && exists j :: r.num <= j < |added| && added[j].key == r.key
  }

  ghost predicate Settled(s: State, r: Row) {
    r in s.server.handled || Superseded(s.added, r)
  }

  ghost predicate Logged(added: seq<Row>, x: Row) {
    1 <= x.num <= |added| && added[x.num - 1] == x
  }

  ghost predicate LogOk(s: State) {
    && Wellformed(s.table) && s.table.next == |s.added| + 1
    && (forall i :: 0 <= i < |s.added| ==> s.added[i].num == i + 1)
    && (forall x :: x in s.table.rows ==> Logged(s.added, x))
    && (forall x :: x in s.server.handled ==> Logged(s.added, x))
  }

  /** A batch is everything pending up to its last row: what it lacks was settled before, what is still pending is in it. */
  ghost predicate BatchOk(s: State, b: seq<Row>) {
    && b != [] && Increasing(b) && (forall x :: x in b ==> Logged(s.added, x))
    && (forall i :: 0 <= i < Top(b) && i < |s.added| ==> s.added[i] in b || Settled(s, s.added[i]))
    && (forall x :: x in s.table.rows && x.num <= Top(b) ==> x in b)
  }

  ghost predicate SettledTo(s: State, n: nat) {
    n <= |s.added| && forall i :: 0 <= i < n ==> Settled(s, s.added[i])
  }

  ghost predicate NothingLost(s: State) {
    forall i :: 0 <= i < |s.added| ==> s.added[i] in s.table.rows || Settled(s, s.added[i])
  }

  ghost predicate Inv(run: string, s: State) {
    && LogOk(s)
    && NothingLost(s)
    && (forall b :: b in s.sent ==> BatchOk(s, b))
    && (forall i :: i in s.delivered ==> i < |s.sent| && forall x :: x in s.sent[i] ==> Settled(s, x))
    && SettledTo(s, Effective(s.server, run))
  }

  lemma SupersededLasts(added: seq<Row>, more: seq<Row>, r: Row)
    requires Superseded(added, r)
    ensures Superseded(added + more, r)
  {
    var j :| r.num <= j < |added| && added[j].key == r.key;
    assert (added + more)[j].key == r.key;
  }

  /** From s to s' nothing settled is unsettled and only rows newer than all of s join the table. */
  ghost predicate Grows(s: State, s': State) {
    && |s.added| <= |s'.added| && s'.added[..|s.added|] == s.added
    && (forall r :: Settled(s, r) ==> Settled(s', r))
    && (forall x :: x in s'.table.rows ==> x in s.table.rows || x.num > |s.added|)
  }

  lemma BatchSurvives(s: State, s': State, b: seq<Row>)
    requires BatchOk(s, b) && Grows(s, s')
    ensures BatchOk(s', b)
  {
    assert b[|b| - 1] in b;
    forall i | 0 <= i < Top(b) && i < |s'.added| ensures s'.added[i] in b || Settled(s', s'.added[i]) {
      assert s'.added[i] == s'.added[..|s.added|][i];
    }
    forall x | x in b ensures Logged(s'.added, x) {
      assert s'.added[x.num - 1] == s'.added[..|s.added|][x.num - 1];
    }
  }

  lemma AllBatchesSurvive(s: State, s': State)
    requires (forall b :: b in s.sent ==> BatchOk(s, b)) && s'.sent == s.sent && Grows(s, s')
    ensures forall b :: b in s'.sent ==> BatchOk(s', b)
  {
    forall b | b in s'.sent ensures BatchOk(s', b) { BatchSurvives(s, s', b); }
  }

  lemma AddGrows(run: string, s: State, event: Event, key: Option<string>)
    requires LogOk(s)
    ensures Grows(s, Apply(run, s, AddEvent(event, key)))
  {
    var s' := Apply(run, s, AddEvent(event, key));
    forall r | Settled(s, r) ensures Settled(s', r) {
      if Superseded(s.added, r) { SupersededLasts(s.added, [Row(s.table.next, key, event)], r); }
    }
  }

  lemma AddKeepsLog(run: string, s: State, event: Event, key: Option<string>)
    requires LogOk(s)
    ensures LogOk(Apply(run, s, AddEvent(event, key)))
  {
    TablesStayWellformed(s.table, event, key, 0);
  }

  lemma AddKeepsInv(run: string, s: State, event: Event, key: Option<string>)
    requires Inv(run, s)
    ensures Inv(run, Apply(run, s, AddEvent(event, key)))
  {
    var s' := Apply(run, s, AddEvent(event, key));
    AddKeepsLog(run, s, event, key);
    AddGrows(run, s, event, key);
    AllBatchesSurvive(s, s');
    AddReplaces(run, s, event, key);
  }

  /** Whatever the add removes from the queue is superseded by the new row. */
  lemma AddReplaces(run: string, s: State, event: Event, key: Option<string>)
    requires LogOk(s) && NothingLost(s)
    ensures NothingLost(Apply(run, s, AddEvent(event, key)))
  {
    var s' := Apply(run, s, AddEvent(event, key));
    AddGrows(run, s, event, key);
    forall i | 0 <= i < |s'.added| ensures s'.added[i] in s'.table.rows || Settled(s', s'.added[i]) {
      if i < |s.added| && s.added[i] in s.table.rows && s.added[i] !in s'.table.rows {
        assert s.added[i].key == key && s'.added[|s.added|].key == key;
      }
    }
  }

  lemma ReadKeepsInv(run: string, s: State)
    requires Inv(run, s)
    ensures Inv(run, Apply(run, s, ReadBatch))
  {
    var b := Pending(s.table, BATCH_LIMIT);
    if b != [] {
      var s' := Apply(run, s, ReadBatch);
      PendingIsOk(s);
      BatchSurvives(s, s', b);
      forall c | c in s.sent ensures BatchOk(s', c) { BatchSurvives(s, s', c); }
    }
  }

  lemma PendingIsOk(s: State)
    requires LogOk(s) && Pending(s.table, BATCH_LIMIT) != [] && NothingLost(s)
    ensures BatchOk(s, Pending(s.table, BATCH_LIMIT))
  {
    var b := Pending(s.table, BATCH_LIMIT);
    assert b[|b| - 1] == s.table.rows[|b| - 1];
    forall x | x in s.table.rows && x.num <= Top(b) ensures x in b {
      var i :| 0 <= i < |s.table.rows| && s.table.rows[i] == x;
      assert b[i] == x;
    }
  }

  lemma {:induction false} FreshIsAbove(rows: seq<Row>, last: nat)
    requires Increasing(rows)
    ensures Fresh(rows, last) == Above(rows, last)
    ensures Increasing(Fresh(rows, last))
    ensures Watermark(rows, last) == if rows != [] && Top(rows) > last then Top(rows) else last
  {
    AboveIncreasing(rows, last);
    if rows != [] {
      FirstIsLeast(rows);
      FreshIsAbove(rows[1..], if rows[0].num <= last then last else rows[0].num);
      if rows[0].num > last {
        AllAbove(rows[1..], last, rows[0].num);
      }
    }
  }

  lemma {:induction false} AllAbove(rows: seq<Row>, low: int, high: int)
    requires forall x :: x in rows ==> x.num > low && x.num > high
    ensures Above(rows, low) == Above(rows, high) == rows
  {
    if rows != [] { AllAbove(rows[1..], low, high); }
  }

  lemma DeliverGrows(run: string, s: State, i: nat)
    ensures Grows(s, Apply(run, s, Deliver(i)))
  {
  }

  lemma DeliverSettlesBatch(run: string, s: State, i: nat, x: Row)
    requires Inv(run, s) && i < |s.sent| && x in s.sent[i]
    ensures Settled(Apply(run, s, Deliver(i)), x) && Logged(s.added, x)
  {
    var b, last := s.sent[i], Effective(s.server, run);
    assert BatchOk(s, b);
    FreshIsAbove(b, last);
    if x.num <= last {
      assert s.added[x.num - 1] == x;
    } else {
      assert x in Above(b, last);
    }
  }

  /** A delivery settles everything up to the last row of its batch. */
  lemma DeliverSettlesFront(run: string, s: State, i: nat)
    requires run != "" && Inv(run, s) && i < |s.sent|
    ensures var s' := Apply(run, s, Deliver(i)); s.sent[i] != [] && SettledTo(s', Top(s.sent[i]))
  {
    var b, s' := s.sent[i], Apply(run, s, Deliver(i));
    assert BatchOk(s, b);
    DeliverGrows(run, s, i);
    assert b[|b| - 1] in b;
    forall k | 0 <= k < Top(b) ensures Settled(s', s'.added[k]) {
      if s.added[k] in b { DeliverSettlesBatch(run, s, i, s.added[k]); }
    }
  }

  lemma DeliverSettlesWatermark(run: string, s: State, i: nat)
    requires run != "" && Inv(run, s) && i < |s.sent|
    ensures var s' := Apply(run, s, Deliver(i)); SettledTo(s', Effective(s'.server, run))
  {
    assert BatchOk(s, s.sent[i]);
    FreshIsAbove(s.sent[i], Effective(s.server, run));
    DeliverGrows(run, s, i);
    DeliverSettlesFront(run, s, i);
  }

  lemma DeliverKeepsInv(run: string, s: State, i: nat)
    requires run != "" && Inv(run, s) && i < |s.sent|
    ensures Inv(run, Apply(run, s, Deliver(i)))
  {
    var s' := Apply(run, s, Deliver(i));
    DeliverGrows(run, s, i);
    AllBatchesSurvive(s, s');
    DeliverSettlesWatermark(run, s, i);
    DeliverKeepsLog(run, s, i);
    forall k, x | k in s'.delivered && x in s'.sent[k] ensures Settled(s', x) {
      if k == i { DeliverSettlesBatch(run, s, i, x); }
    }
  }

  lemma DeliverKeepsLog(run: string, s: State, i: nat)
    requires Inv(run, s) && i < |s.sent|
    ensures LogOk(Apply(run, s, Deliver(i)))
  {
    assert BatchOk(s, s.sent[i]);
    FreshIsAbove(s.sent[i], Effective(s.server, run));
  }

  /** An ack removes only rows of the batch it answers, all of which the server has had. */
  lemma AckKeepsInv(run: string, s: State, i: nat)
    requires Inv(run, s) && i in s.delivered
    ensures Inv(run, Apply(run, s, Acknowledge(i)))
    ensures forall x :: x in s.table.rows && x !in Apply(run, s, Acknowledge(i)).table.rows ==> x in s.sent[i]
  {
    var b := s.sent[i];
    assert b in s.sent && BatchOk(s, b);
    var s' := Apply(run, s, Acknowledge(i));
    TablesStayWellformed(s.table, Event("", ""), None, Top(b));
    AllBatchesSurvive(s, s');
  }

  lemma OtherRunKeepsInv(run: string, s: State, other: string, last: nat)
    requires run != "" && Inv(run, s)
    ensures Inv(run, Apply(run, s, OtherRun(other, last)))
  {
    var s' := Apply(run, s, OtherRun(other, last));
    AllBatchesSurvive(s, s');
  }

  // ---------------------------------------------------------------- batches without a run id

  /** A batch without a run id does no harm if it leaves the watermark alone, if the watermark is another run's and will be
      reset, or if all it skips has been handled or replaced. */
  ghost predicate Harmless(run: string, s: State, step: Step) {
    step.LegacyBatch? ==> step.last <= s.server.last || s.server.lastRun != run || SettledTo(s, step.last)
  }

  /** So is every step of the run. */
  ghost predicate HarmlessRun(run: string, s: State, steps: seq<Step>) {
    steps == [] ||
    (var before := steps[..|steps| - 1];
     HarmlessRun(run, s, before) && Harmless(run, Exec(run, s, before), steps[|steps| - 1]))
  }

  ghost predicate NoLegacyBatch(steps: seq<Step>) {
    forall i :: 0 <= i < |steps| ==> !steps[i].LegacyBatch?
  }

  lemma {:induction false} NoLegacyIsHarmless(run: string, s: State, steps: seq<Step>)
    requires NoLegacyBatch(steps)
    ensures HarmlessRun(run, s, steps)
  {
    if steps != [] { NoLegacyIsHarmless(run, s, steps[..|steps| - 1]); }
  }

  /** A step keeps the invariant exactly if it is harmless. */
  lemma StepKeepsInv(run: string, s: State, step: Step)
    requires Inv(run, s) && run != ""
    ensures Inv(run, Apply(run, s, step)) <==> Harmless(run, s, step)
  {
    match step
    case AddEvent(event, key) => AddKeepsInv(run, s, event, key);
    case ReadBatch => ReadKeepsInv(run, s);
    case Deliver(i) => if i < |s.sent| { DeliverKeepsInv(run, s, i); }
    case Acknowledge(i) => if i in s.delivered { AckKeepsInv(run, s, i); }
    case OtherRun(other, last) => OtherRunKeepsInv(run, s, other, last);
    case LegacyBatch(last) => LegacyKeepsInvIff(run, s, last);
  }

  lemma LegacyKeepsInvIff(run: string, s: State, last: nat)
    requires Inv(run, s) && run != ""
    ensures Inv(run, Apply(run, s, LegacyBatch(last))) <==> Harmless(run, s, LegacyBatch(last))
  {
    var s' := Apply(run, s, LegacyBatch(last));
    AllBatchesSurvive(s, s');
    assert SettledTo(s', last) <==> SettledTo(s, last);
  }

  lemma {:induction false} RunKeepsInv(run: string, s: State, steps: seq<Step>)
    requires Inv(run, s) && run != "" && HarmlessRun(run, s, steps)
    ensures Inv(run, Exec(run, s, steps))
  {
    if steps != [] {
      RunKeepsInv(run, s, steps[..|steps| - 1]);
      StepKeepsInv(run, Exec(run, s, steps[..|steps| - 1]), steps[|steps| - 1]);
    }
  }

  /** The store's run id is new: it is drawn when the store is created and lives in it. */
  ghost predicate NewRun(run: string, lastRun: string) { run != "" && run != lastRun }

  lemma AlwaysInv(run: string, lastRun: string, last: nat, steps: seq<Step>)
    requires NewRun(run, lastRun) && HarmlessRun(run, Start(lastRun, last), steps)
    ensures Inv(run, Exec(run, Start(lastRun, last), steps))
  {
    RunKeepsInv(run, Start(lastRun, last), steps);
  }

  /** In every reachable state each event ever added was handed to the server's handler, is still pending, or was replaced
      by a later event with the same dedupe key. */
  lemma NoEventIsLost(run: string, lastRun: string, last: nat, steps: seq<Step>, r: Row)
    requires NewRun(run, lastRun) && HarmlessRun(run, Start(lastRun, last), steps)
    ensures var s := Exec(run, Start(lastRun, last), steps);
            r in s.added ==> r in s.server.handled || r in s.table.rows || Superseded(s.added, r)
  {
    AlwaysInv(run, lastRun, last, steps);
  }

  /** In every reachable state an ack deletes only rows of its own batch, and each of them had reached the server or been
      replaced: a row that was never sent survives every ack, whichever uploader it comes from. */
  lemma AcksDeleteOnlySentRows(run: string, lastRun: string, last: nat, steps: seq<Step>, i: nat, x: Row)
    requires NewRun(run, lastRun) && HarmlessRun(run, Start(lastRun, last), steps)
    ensures var s := Exec(run, Start(lastRun, last), steps);
            x in s.table.rows && x !in Apply(run, s, Acknowledge(i)).table.rows
            ==> i in s.delivered && i < |s.sent| && x in s.sent[i] && Settled(s, x)
  {
    var s := Exec(run, Start(lastRun, last), steps);
    AlwaysInv(run, lastRun, last, steps);
    if i in s.delivered { AckKeepsInv(run, s, i); }
  }

  /** Nothing is lost whatever this runner and its server do from here on. */
  ghost predicate StaysSafe(run: string, s: State) {
    forall more :: NoLegacyBatch(more) ==> NothingLost(Exec(run, s, more))
  }

  /** The condition is exact: from any state in order, a batch without a run id is harmless if and only if the runner and its
      server cannot lose an event afterwards by adding, reading, delivering and acking as usual. */
  lemma LegacyBatchIsSafeIff(run: string, s: State, last: nat)
    requires Inv(run, s) && run != ""
    ensures Harmless(run, s, LegacyBatch(last)) <==> StaysSafe(run, Apply(run, s, LegacyBatch(last)))
  {
    var s' := Apply(run, s, LegacyBatch(last));
    if Harmless(run, s, LegacyBatch(last)) {
      StepKeepsInv(run, s, LegacyBatch(last));
      forall more | NoLegacyBatch(more) ensures NothingLost(Exec(run, s', more)) {
        NoLegacyIsHarmless(run, s', more);
        RunKeepsInv(run, s', more);
      }
    } else {
      var more := HarmfulBatchLoses(run, s, last);
    }
  }

  lemma HarmfulBatchLoses(run: string, s: State, last: nat) returns (more: seq<Step>)
    requires Inv(run, s) && run != "" && !Harmless(run, s, LegacyBatch(last))
    ensures NoLegacyBatch(more) && !NothingLost(Exec(run, Apply(run, s, LegacyBatch(last)), more))
  {
    var s' := Apply(run, s, LegacyBatch(last));
    if i :| 0 <= i < last && i < |s.added| && !Settled(s, s.added[i]) {
      more := DrainLoses(run, s', s.added[i]);
    } else {
      var add := AddEvent(Event("", ""), None);
      var x := Row(s.table.next, None, Event("", ""));
      AddKeepsLog(run, s, Event("", ""), None);
      var s2 := ExecMore(run, s', [], add);
      assert [] + [add] == [add] && s2.added[x.num - 1] == x;
      assert x in s.server.handled ==> Logged(s.added, x);
      more := DrainLoses(run, s2, x);
      ExecJoin(run, s', [add], more);
      more := [add] + more;
    }
  }

  /** Such batches are always possible while the server last heard from this run: one that raises the watermark above
      everything added so far can make it drop the next event, which is then acked and gone. */
  lemma HigherMarkLosesAnEvent(run: string, s: State) returns (more: seq<Step>)
    requires Inv(run, s) && run != "" && s.server.lastRun == run
    ensures NoLegacyBatch(more) && !NothingLost(Exec(run, Apply(run, s, LegacyBatch(|s.added| + 1)), more))
  {
    more := HarmfulBatchLoses(run, s, |s.added| + 1);
  }

  /** The row was not handled, and the watermark is above it. */
  ghost predicate Doomed(run: string, s: State, x: Row) {
    Wellformed(s.table) && s.server.lastRun == run && x.num <= s.server.last && x in s.added && !Settled(s, x)
  }

  function Round(batch: nat): seq<Step> { [ReadBatch, Deliver(batch)] + [Acknowledge(batch)] }

  /** A round of the runner takes rows off the queue and hands over none below the watermark. */
  lemma RoundKeepsDoomed(run: string, s: State, x: Row)
    requires Doomed(run, s, x) && run != "" && s.table.rows != []
    ensures var s' := Exec(run, s, Round(|s.sent|)); Doomed(run, s', x) && |s'.table.rows| < |s.table.rows|
  {
    var rows := Pending(s.table, BATCH_LIMIT);
    RoundSteps(run, s, rows);
    AckTakesBatch(s.table.rows, |rows|);
    TablesStayWellformed(s.table, Event("", ""), None, Top(rows));
    FreshIsNew(rows, s.server.last);
  }

  /** Emptying the queue drops such a row. */
  lemma {:induction false} DrainLoses(run: string, s: State, x: Row) returns (more: seq<Step>)
    requires Doomed(run, s, x) && run != ""
    ensures NoLegacyBatch(more) && !NothingLost(Exec(run, s, more))
    decreases |s.table.rows|
  {
    if s.table.rows == [] {
      more := [];
    } else {
      RoundKeepsDoomed(run, s, x);
      var rest := DrainLoses(run, Exec(run, s, Round(|s.sent|)), x);
      ExecJoin(run, s, Round(|s.sent|), rest);
      more := Round(|s.sent|) + rest;
    }
  }

  lemma {:induction false} FreshIsNew(rows: seq<Row>, last: nat)
    ensures (forall x :: x in Fresh(rows, last) ==> x.num > last) && Watermark(rows, last) >= last
  {
    if rows != [] { FreshIsNew(rows[1..], if rows[0].num <= last then last else rows[0].num); }
  }

  // ---------------------------------------------------------------- runs, step by step

  lemma ExecMore(run: string, s: State, steps: seq<Step>, step: Step) returns (s': State)
    ensures s' == Exec(run, s, steps + [step]) == Apply(run, Exec(run, s, steps), step)
  {
    assert (steps + [step])[..|steps|] == steps;
    s' := Exec(run, s, steps + [step]);
  }

  lemma ExecTwo(run: string, s: State, steps: seq<Step>, a: Step, b: Step)
    ensures Exec(run, s, steps + [a, b]) == Apply(run, Apply(run, Exec(run, s, steps), a), b)
  {
    assert (steps + [a, b])[..|steps| + 1] == steps + [a] && (steps + [a])[..|steps|] == steps;
  }

  lemma ExecFour(run: string, s: State, steps: seq<Step>, a: Step, b: Step, c: Step, d: Step)
    ensures Exec(run, s, steps + [a, b, c, d])
         == Apply(run, Apply(run, Apply(run, Apply(run, Exec(run, s, steps), a), b), c), d)
  {
    ExecTwo(run, s, steps, a, b);
    ExecTwo(run, s, steps + [a, b], c, d);
    assert steps + [a, b] + [c, d] == steps + [a, b, c, d];
  }

  lemma {:induction false} ExecJoin(run: string, s: State, a: seq<Step>, b: seq<Step>)
    ensures Exec(run, s, a + b) == Exec(run, Exec(run, s, a), b)
  {
    if b == [] {
      assert a + b == a;
    } else {
      assert (a + b)[..|a + b| - 1] == a + b[..|b| - 1];
      ExecJoin(run, s, a, b[..|b| - 1]);
    }
  }

  /** Acking up to the last row of a batch takes exactly that batch off the front. */
  lemma {:induction false} AckTakesBatch(rows: seq<Row>, n: nat)
    requires Increasing(rows) && 0 < n <= |rows|
    ensures Above(rows, rows[n - 1].num) == rows[n..]
  {
    FirstIsLeast(rows);
    if n > 1 {
      assert rows[1..][n - 2] == rows[n - 1] && rows[1..][n - 1..] == rows[n..];
      AckTakesBatch(rows[1..], n - 1);
      assert rows[n - 1] in rows[1..];
    } else {
      AllAbove(rows[1..], rows[0].num, rows[0].num);
    }
  }

  /** The three stages of one round, as protocol steps. */
  lemma RoundSteps(run: string, s: State, rows: seq<Row>)
    requires rows == Pending(s.table, BATCH_LIMIT) && rows != []
    ensures Exec(run, s, [ReadBatch]) == s.(sent := s.sent + [rows])
    ensures var s' := Exec(run, s, [ReadBatch, Deliver(|s.sent|)]);
            s'.table == s.table && s'.server == Ingested(s.server, run, rows)
    ensures var s' := Exec(run, s, [ReadBatch, Deliver(|s.sent|)] + [Acknowledge(|s.sent|)]);
            s'.table == Ack(s.table, Top(rows)) && s'.server == Ingested(s.server, run, rows) && s'.added == s.added
  {
    var b := |s.sent|;
    assert Apply(run, s, ReadBatch) == s.(sent := s.sent + [rows]);
    assert [] + [ReadBatch] == [ReadBatch] && [] + [ReadBatch, Deliver(b)] == [ReadBatch, Deliver(b)];
    var s1 := ExecMore(run, s, [], ReadBatch);
    ExecTwo(run, s, [], ReadBatch, Deliver(b));
    assert s1.sent[b] == rows;
    var s3 := ExecMore(run, s, [ReadBatch, Deliver(b)], Acknowledge(b));
  }
}
