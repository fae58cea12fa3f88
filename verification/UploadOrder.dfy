/** The order in which the server handles the rows of an outbox, and what a reader keeps for whom newer events win. */
module UploadOrder {
  // A delivery out of order takes a watermark that another run of the same runner has reset; which deliveries then do
  // harm is said exactly.

  import opened Common
  import opened Outbox
  import opened UploadProtocol

  // ---------------------------------------------------------------- in order and once

  /** All rows that the delivery hands over are newer than what was handled. */
  ghost predicate OnTime(run: string, s: State, step: Step) {
    step.Deliver? && step.batch < |s.sent| ==>
      forall x, y :: x in s.sent[step.batch] && y in s.server.handled && x.num > Effective(s.server, run) ==> y.num < x.num
  }

  ghost predicate AlwaysOnTime(run: string, s: State, steps: seq<Step>) {
    steps == [] ||
    (var before := steps[..|steps| - 1];
     AlwaysOnTime(run, s, before) && OnTime(run, Exec(run, s, before), steps[|steps| - 1]))
  }

  lemma JoinIncreasing(a: seq<Row>, b: seq<Row>)
    ensures Increasing(a + b) <==> Increasing(a) && Increasing(b) && forall x, y :: x in a && y in b ==> x.num < y.num
  {
    if Increasing(a + b) {
      assert (a + b)[..|a|] == a && (a + b)[|a|..] == b;
      forall x, y | x in a && y in b ensures x.num < y.num {
        var i :| 0 <= i < |a| && a[i] == x;
        var j :| 0 <= j < |b| && b[j] == y;
        assert (a + b)[i] == x && (a + b)[|a| + j] == y;
      }
    } else if Increasing(a) && Increasing(b) && forall x, y :: x in a && y in b ==> x.num < y.num {
      forall i, j | 0 <= i < j < |a + b| ensures (a + b)[i].num < (a + b)[j].num {
        if i < |a| <= j { assert a[i] in a && b[j - |a|] in b; }
      }
      assert false;
    }
  }

  /** What a delivery appends. */
  lemma DeliveryAppends(run: string, s: State, i: nat)
    requires Inv(run, s) && i < |s.sent|
    ensures Apply(run, s, Deliver(i)).server.handled == s.server.handled + Fresh(s.sent[i], Effective(s.server, run))
    ensures Increasing(Fresh(s.sent[i], Effective(s.server, run)))
    ensures forall x :: x in Fresh(s.sent[i], Effective(s.server, run))
              <==> x in s.sent[i] && x.num > Effective(s.server, run)
  {
    assert BatchOk(s, s.sent[i]);
    FreshIsAbove(s.sent[i], Effective(s.server, run));
  }

  lemma StepKeepsOrderIff(run: string, s: State, step: Step)
    requires Inv(run, s)
    ensures Increasing(Apply(run, s, step).server.handled) <==> Increasing(s.server.handled) && OnTime(run, s, step)
  {
    if step.Deliver? && step.batch < |s.sent| {
      DeliveryAppends(run, s, step.batch);
      JoinIncreasing(s.server.handled, Fresh(s.sent[step.batch], Effective(s.server, run)));
    }
  }

  ghost predicate NoOtherRun(steps: seq<Step>) {
    forall i :: 0 <= i < |steps| ==> !steps[i].OtherRun?
  }

  /** The server handles rows in strictly increasing order, so none twice, if and only if every delivery is on time: whatever
      is delivered again, late or by a second uploader. */
  lemma {:induction false} HandledOnceInOrderIff(run: string, lastRun: string, last: nat, steps: seq<Step>)
    requires NewRun(run, lastRun) && HarmlessRun(run, Start(lastRun, last), steps)
    ensures Increasing(Exec(run, Start(lastRun, last), steps).server.handled)
       <==> AlwaysOnTime(run, Start(lastRun, last), steps)
  {
    if steps != [] {
      var s0, before := Start(lastRun, last), steps[..|steps| - 1];
      HandledOnceInOrderIff(run, lastRun, last, before);
      AlwaysInv(run, lastRun, last, before);
      StepKeepsOrderIff(run, Exec(run, s0, before), steps[|steps| - 1]);
    }
  }

  /** The watermark is above all that was handled. */
  ghost predicate Covered(run: string, server: Server) {
    forall x :: x in server.handled ==> x.num <= Effective(server, run)
  }

  /** While no other run interferes every delivery is on time. */
  lemma {:induction false} SoleRunIsOnTime(run: string, lastRun: string, last: nat, steps: seq<Step>)
    requires NewRun(run, lastRun) && HarmlessRun(run, Start(lastRun, last), steps) && NoOtherRun(steps)
    ensures AlwaysOnTime(run, Start(lastRun, last), steps) && Covered(run, Exec(run, Start(lastRun, last), steps).server)
  {
    if steps != [] {
      var s0, before := Start(lastRun, last), steps[..|steps| - 1];
      SoleRunIsOnTime(run, lastRun, last, before);
      AlwaysInv(run, lastRun, last, before);
      StepKeepsCovered(run, Exec(run, s0, before), steps[|steps| - 1]);
    }
  }

  lemma StepKeepsCovered(run: string, s: State, step: Step)
    requires Inv(run, s) && run != "" && Covered(run, s.server) && !step.OtherRun?
    ensures Covered(run, Apply(run, s, step).server)
  {
    if step.Deliver? && step.batch < |s.sent| {
      var rows := s.sent[step.batch];
      assert BatchOk(s, rows);
      FreshIsAbove(rows, Effective(s.server, run));
      DeliveryAppends(run, s, step.batch);
      forall x | x in rows ensures x.num <= Top(rows) { BelowTop(run, s, step.batch, x); }
    }
  }

  // ---------------------------------------------------------------- late rows are not news

  /** Everything up to a handled row is settled. */
  ghost predicate FrontsSettled(s: State) { forall y :: y in s.server.handled ==> SettledTo(s, y.num) }

  lemma StepKeepsFronts(run: string, s: State, step: Step)
    requires Inv(run, s) && run != "" && FrontsSettled(s) && Harmless(run, s, step)
    ensures FrontsSettled(Apply(run, s, step))
  {
    if step.Deliver? && step.batch < |s.sent| {
      DeliverKeepsFronts(run, s, step.batch);
    } else {
      if step.AddEvent? { AddGrows(run, s, step.event, step.key); }
      FrontsLast(s, Apply(run, s, step));
    }
  }

  lemma FrontsLast(s: State, s': State)
    requires FrontsSettled(s) && Grows(s, s')
    ensures forall y :: y in s.server.handled ==> SettledTo(s', y.num)
  {
    forall y | y in s.server.handled ensures SettledTo(s', y.num) { SettledLasts(s, s', y.num); }
  }

  lemma DeliverKeepsFronts(run: string, s: State, b: nat)
    requires Inv(run, s) && run != "" && FrontsSettled(s) && b < |s.sent|
    ensures FrontsSettled(Apply(run, s, Deliver(b)))
  {
    var s' := Apply(run, s, Deliver(b));
    DeliverGrows(run, s, b);
    FrontsLast(s, s');
    DeliverSettlesFront(run, s, b);
    DeliveryAppends(run, s, b);
    forall y | y in s.sent[b] ensures SettledTo(s', y.num) { BelowTop(run, s, b, y); }
  }

  lemma BelowTop(run: string, s: State, b: nat, y: Row)
    requires Inv(run, s) && b < |s.sent| && y in s.sent[b]
    ensures y.num <= Top(s.sent[b])
  {
    var rows := s.sent[b];
    assert BatchOk(s, rows);
    var i :| 0 <= i < |rows| && rows[i] == y;
  }

  lemma SettledLasts(s: State, s': State, n: nat)
    requires Grows(s, s') && SettledTo(s, n)
    ensures SettledTo(s', n)
  {
    forall i | 0 <= i < n ensures Settled(s', s'.added[i]) { assert s'.added[i] == s'.added[..|s.added|][i]; }
  }

  lemma {:induction false} AlwaysFronts(run: string, lastRun: string, last: nat, steps: seq<Step>)
    requires NewRun(run, lastRun) && HarmlessRun(run, Start(lastRun, last), steps)
    ensures FrontsSettled(Exec(run, Start(lastRun, last), steps))
  {
    if steps != [] {
      var s0, before := Start(lastRun, last), steps[..|steps| - 1];
      AlwaysFronts(run, lastRun, last, before);
      AlwaysInv(run, lastRun, last, before);
      StepKeepsFronts(run, Exec(run, s0, before), steps[|steps| - 1]);
    }
  }

  /** In every reachable state: a row of a batch that is not newer than all that was handled was handled itself, or a later
      event of its key has replaced it.  So a delivery that is not on time repeats old rows; it never brings news late. */
  lemma LateRowsAreOld(run: string, lastRun: string, last: nat, steps: seq<Step>, b: nat, x: Row, y: Row)
    requires NewRun(run, lastRun) && HarmlessRun(run, Start(lastRun, last), steps)
    ensures var s := Exec(run, Start(lastRun, last), steps);
            b < |s.sent| && x in s.sent[b] && y in s.server.handled && x.num <= y.num ==> Settled(s, x)
  {
    var s := Exec(run, Start(lastRun, last), steps);
    AlwaysInv(run, lastRun, last, steps);
    AlwaysFronts(run, lastRun, last, steps);
    if b < |s.sent| && x in s.sent[b] && y in s.server.handled && x.num <= y.num { LateIsSettled(run, s, b, x, y); }
  }

  lemma LateIsSettled(run: string, s: State, b: nat, x: Row, y: Row)
    requires Inv(run, s) && FrontsSettled(s) && b < |s.sent| && x in s.sent[b] && y in s.server.handled && x.num <= y.num
    ensures Settled(s, x)
  {
    SentIsLogged(run, s, b, x);
    FrontRowIsSettled(s, y.num, x);
  }

  lemma SentIsLogged(run: string, s: State, b: nat, x: Row)
    requires Inv(run, s) && b < |s.sent| && x in s.sent[b]
    ensures Logged(s.added, x)
  {
    assert BatchOk(s, s.sent[b]);
  }

  lemma FrontRowIsSettled(s: State, n: nat, x: Row)
    requires SettledTo(s, n) && Logged(s.added, x) && x.num <= n
    ensures Settled(s, x)
  {
  }

  // ---------------------------------------------------------------- events that are never coalesced

  /** The rows that are never coalesced. */
  function Plain(log: seq<Row>): (r: seq<Row>)
    ensures forall x :: x in r <==> x in log && !Coalesces(x.key)
  {
    if log == [] then []
    else if Coalesces(log[0].key) then Plain(log[1..])
    else [log[0]] + Plain(log[1..])
  }

  lemma {:induction false} PlainIncreasing(log: seq<Row>)
    requires Increasing(log)
    ensures Increasing(Plain(log))
  {
    if log != [] {
      FirstIsLeast(log);
      PlainIncreasing(log[1..]);
    }
  }

  lemma {:induction false} PlainJoin(a: seq<Row>, b: seq<Row>)
    ensures Plain(a + b) == Plain(a) + Plain(b)
  {
    if a == [] {
      assert a + b == b;
    } else {
      assert (a + b)[1..] == a[1..] + b;
      PlainJoin(a[1..], b);
    }
  }

  /** The delivery hands over an uncoalesced row for the second time. */
  ghost predicate Repeats(run: string, s: State, step: Step) {
    step.Deliver? && step.batch < |s.sent|
    && exists x :: x in s.sent[step.batch] && x.num > Effective(s.server, run) && !Coalesces(x.key) && x in s.server.handled
  }

  ghost predicate NeverRepeats(run: string, s: State, steps: seq<Step>) {
    steps == [] ||
    (var before := steps[..|steps| - 1];
     NeverRepeats(run, s, before) && !Repeats(run, Exec(run, s, before), steps[|steps| - 1]))
  }

  lemma StepKeepsPlainIff(run: string, s: State, step: Step)
    requires Inv(run, s) && FrontsSettled(s)
    ensures Increasing(Plain(Apply(run, s, step).server.handled))
       <==> Increasing(Plain(s.server.handled)) && !Repeats(run, s, step)
  {
    if step.Deliver? && step.batch < |s.sent| {
      var newer := Fresh(s.sent[step.batch], Effective(s.server, run));
      DeliveryAppends(run, s, step.batch);
      RepeatsUnlessBehind(run, s, step);
      PlainKeptIff(s.server.handled, newer, Apply(run, s, step).server.handled, Repeats(run, s, step));
    }
  }

  lemma PlainKeptIff(log: seq<Row>, newer: seq<Row>, after: seq<Row>, repeats: bool)
    requires Increasing(newer) && after == log + newer && (repeats <==> !Behind(Plain(log), Plain(newer)))
    ensures Increasing(Plain(after)) <==> Increasing(Plain(log)) && !repeats
  {
    PlainStaysIncreasing(log, newer);
  }

  lemma RepeatsUnlessBehind(run: string, s: State, step: Step)
    requires Inv(run, s) && FrontsSettled(s) && step.Deliver? && step.batch < |s.sent|
    ensures Repeats(run, s, step)
       <==> !Behind(Plain(s.server.handled), Plain(Fresh(s.sent[step.batch], Effective(s.server, run))))
  {
    if Repeats(run, s, step) { RepeatedIsTwice(run, s, step); } else { NewIsBehind(run, s, step); }
  }

  /** All of the second log is newer than the first. */
  ghost predicate Behind(a: seq<Row>, b: seq<Row>) { forall x, y :: x in a && y in b ==> x.num < y.num }

  lemma PlainStaysIncreasing(log: seq<Row>, newer: seq<Row>)
    requires Increasing(newer)
    ensures Increasing(Plain(log + newer)) <==> Increasing(Plain(log)) && Behind(Plain(log), Plain(newer))
  {
    PlainJoin(log, newer);
    PlainIncreasing(newer);
    JoinIncreasing(Plain(log), Plain(newer));
  }

  lemma RepeatedIsTwice(run: string, s: State, step: Step)
    requires Inv(run, s) && Repeats(run, s, step)
    ensures !Behind(Plain(s.server.handled), Plain(Fresh(s.sent[step.batch], Effective(s.server, run))))
  {
    DeliveryAppends(run, s, step.batch);
    var x :| x in s.sent[step.batch] && x.num > Effective(s.server, run) && !Coalesces(x.key) && x in s.server.handled;
    assert x in Plain(s.server.handled) && x in Plain(Fresh(s.sent[step.batch], Effective(s.server, run)));
  }

  lemma NewIsBehind(run: string, s: State, step: Step)
    requires Inv(run, s) && FrontsSettled(s) && !Repeats(run, s, step) && step.Deliver? && step.batch < |s.sent|
    ensures Behind(Plain(s.server.handled), Plain(Fresh(s.sent[step.batch], Effective(s.server, run))))
  {
    var h, newer := s.server.handled, Fresh(s.sent[step.batch], Effective(s.server, run));
    DeliveryAppends(run, s, step.batch);
    forall x, y | x in Plain(h) && y in Plain(newer) ensures x.num < y.num {
      if y.num <= x.num {
        LateIsSettled(run, s, step.batch, y, x);
        assert false;
      }
    }
  }

  /** Each uncoalesced event is handled once, in order, if and only if no delivery repeats one. */
  lemma {:induction false} PlainOnceInOrderIff(run: string, lastRun: string, last: nat, steps: seq<Step>)
    requires NewRun(run, lastRun) && HarmlessRun(run, Start(lastRun, last), steps)
    ensures Increasing(Plain(Exec(run, Start(lastRun, last), steps).server.handled))
       <==> NeverRepeats(run, Start(lastRun, last), steps)
  {
    if steps != [] {
      var s0, before := Start(lastRun, last), steps[..|steps| - 1];
      PlainOnceInOrderIff(run, lastRun, last, before);
      AlwaysInv(run, lastRun, last, before);
      AlwaysFronts(run, lastRun, last, before);
      StepKeepsPlainIff(run, Exec(run, s0, before), steps[|steps| - 1]);
    }
  }

  // ---------------------------------------------------------------- newest wins

  /** The last row of a log with the given key: what a reader that lets newer events win keeps of it. */
  function Latest(log: seq<Row>, key: Option<string>): Option<Row> {
    if log == [] then None
    else if log[|log| - 1].key == key then Some(log[|log| - 1])
    else Latest(log[..|log| - 1], key)
  }

  lemma {:induction false} LatestIsNewest(log: seq<Row>, key: Option<string>)
    requires Increasing(log)
    ensures match Latest(log, key)
            case None => forall x :: x in log ==> x.key != key
            case Some(r) => r in log && r.key == key && forall x :: x in log && x.key == key ==> x.num <= r.num
  {
    if log != [] {
      var front, final := log[..|log| - 1], log[|log| - 1];
      LatestIsNewest(front, key);
      assert log == front + [final];
      forall x | x in front ensures x.num < final.num {
        var i :| 0 <= i < |front| && front[i] == x;
        assert log[i] == x;
      }
    }
  }

  lemma {:induction false} LatestJoin(a: seq<Row>, b: seq<Row>, key: Option<string>)
    ensures Latest(a + b, key) == if Latest(b, key).Some? then Latest(b, key) else Latest(a, key)
  {
    if b == [] {
      assert a + b == a;
    } else {
      assert (a + b)[..|a + b| - 1] == a + b[..|b| - 1];
      LatestJoin(a, b[..|b| - 1], key);
    }
  }

  /** What the reader keeps of the key is the newest row that was handled. */
  ghost predicate NewestWins(log: seq<Row>, key: Option<string>) {
    forall x :: x in log && x.key == key ==> Latest(log, key).Some? && x.num <= Latest(log, key).value.num
  }

  /** The batch ends, for this key, with a row older than one that was handled. */
  ghost predicate Stale(s: State, b: nat, key: Option<string>) {
    b < |s.sent| && Latest(s.sent[b], key).Some?
    && exists y :: y in s.server.handled && y.key == key && y.num > Latest(s.sent[b], key).value.num
  }

  /** The delivery hands over such a row. */
  ghost predicate SetsBack(run: string, s: State, step: Step, key: Option<string>) {
    step.Deliver? && Stale(s, step.batch, key) && Latest(s.sent[step.batch], key).value.num > Effective(s.server, run)
  }

  ghost predicate NeverSetBack(run: string, s: State, steps: seq<Step>, key: Option<string>) {
    steps == [] ||
    (var before := steps[..|steps| - 1];
     NeverSetBack(run, s, before, key) && !SetsBack(run, Exec(run, s, before), steps[|steps| - 1], key))
  }

  lemma LatestFresh(rows: seq<Row>, last: nat, key: Option<string>)
    requires Increasing(rows)
    ensures Latest(Fresh(rows, last), key)
         == if Latest(rows, key).Some? && Latest(rows, key).value.num > last then Latest(rows, key) else None
  {
    FreshIsAbove(rows, last);
    LatestIsNewest(rows, key);
    LatestIsNewest(Fresh(rows, last), key);
  }

  /** A step sets the reader back if and only if it delivers such a row above the watermark. */
  lemma StepKeepsNewestIff(run: string, s: State, step: Step, key: Option<string>)
    requires Inv(run, s) && NewestWins(s.server.handled, key)
    ensures NewestWins(Apply(run, s, step).server.handled, key) <==> !SetsBack(run, s, step, key)
  {
    if step.Deliver? && step.batch < |s.sent| {
      var h, last := s.server.handled, Effective(s.server, run);
      var rows := s.sent[step.batch];
      assert BatchOk(s, rows);
      DeliveryAppends(run, s, step.batch);
      LatestFresh(rows, last, key);
      LatestJoin(h, Fresh(rows, last), key);
      LatestIsNewest(Fresh(rows, last), key);
    }
  }

  lemma {:induction false} NewestWinsUnlessSetBack(run: string, lastRun: string, last: nat, steps: seq<Step>,
                                                   key: Option<string>)
    requires NewRun(run, lastRun) && HarmlessRun(run, Start(lastRun, last), steps)
    requires NeverSetBack(run, Start(lastRun, last), steps, key)
    ensures NewestWins(Exec(run, Start(lastRun, last), steps).server.handled, key)
  {
    if steps != [] {
      var s0, before := Start(lastRun, last), steps[..|steps| - 1];
      NewestWinsUnlessSetBack(run, lastRun, last, before, key);
      AlwaysInv(run, lastRun, last, before);
      StepKeepsNewestIff(run, Exec(run, s0, before), steps[|steps| - 1], key);
    }
  }

  /** Deliveries on time neither repeat nor set back. */
  lemma {:induction false} OnTimeIsFine(run: string, lastRun: string, last: nat, steps: seq<Step>, key: Option<string>)
    requires NewRun(run, lastRun) && HarmlessRun(run, Start(lastRun, last), steps)
    requires AlwaysOnTime(run, Start(lastRun, last), steps)
    ensures NeverRepeats(run, Start(lastRun, last), steps) && NeverSetBack(run, Start(lastRun, last), steps, key)
  {
    if steps != [] {
      var before := steps[..|steps| - 1];
      OnTimeIsFine(run, lastRun, last, before, key);
      AlwaysInv(run, lastRun, last, before);
      OnTimeStepIsFine(run, Exec(run, Start(lastRun, last), before), steps[|steps| - 1], key);
    }
  }

  lemma OnTimeStepIsFine(run: string, s: State, step: Step, key: Option<string>)
    requires OnTime(run, s, step) && Inv(run, s)
    ensures !Repeats(run, s, step) && !SetsBack(run, s, step, key)
  {
    if step.Deliver? && step.batch < |s.sent| {
      assert BatchOk(s, s.sent[step.batch]);
      LatestIsNewest(s.sent[step.batch], key);
    }
  }

  /** The batch of another run lets a delivery set the reader back if and only if some batch read before ends, for that key,
      with a row older than one that was handled. */
  lemma OtherRunSetsBackIff(run: string, s: State, other: string, last: nat, key: Option<string>)
    requires Inv(run, s) && run != "" && NewestWins(s.server.handled, key) && other != run && other != ""
    ensures (exists b :: Stale(s, b, key))
       <==> exists b :: !NewestWins(Apply(run, Apply(run, s, OtherRun(other, last)), Deliver(b)).server.handled, key)
  {
    var s' := Apply(run, s, OtherRun(other, last));
    OtherRunKeepsInv(run, s, other, last);
    forall b: nat
      ensures Stale(s, b, key) <==> !NewestWins(Apply(run, s', Deliver(b)).server.handled, key)
    {
      StepKeepsNewestIff(run, s', Deliver(b), key);
      if Stale(s, b, key) {
        assert BatchOk(s, s.sent[b]);
        LatestIsNewest(s.sent[b], key);
      }
    }
  }

  // ---------------------------------------------------------------- the drained outbox

  lemma FirstIsLowest(rows: seq<Row>, x: Row)
    requires Increasing(rows) && x in rows
    ensures x == rows[0] || (x in rows[1..] && rows[0].num < x.num)
  {
    FirstIsLeast(rows);
  }

  lemma {:induction false} SameRowsSameLog(a: seq<Row>, b: seq<Row>)
    requires Increasing(a) && Increasing(b) && forall x :: x in a <==> x in b
    ensures a == b
  {
    assert b != [] ==> b[0] in b;
    if a != [] {
      assert a[0] in a && b[0] in b;
      FirstIsLowest(b, a[0]);
      FirstIsLowest(a, b[0]);
      forall x ensures x in a[1..] <==> x in b[1..] {
        if x in a[1..] { FirstIsLowest(b, x); FirstIsLeast(a); }
        if x in b[1..] { FirstIsLowest(a, x); FirstIsLeast(b); }
      }
      SameRowsSameLog(a[1..], b[1..]);
    }
  }

  ghost predicate PendingIsHandled(s: State) {
    forall x :: x in s.table.rows ==> x in s.server.handled
  }

  /** Coalescing refines the full log.  Whenever everything pending has been handled (in particular once the outbox has
      drained), the server has seen every uncoalesced event exactly once and in order if and only if no delivery repeated
      one; and for a dedupe key the last event it saw is the last one ever added if and only if the newest one handled won,
      as it does unless a delivery set it back. */
  lemma DrainedRefinesLog(run: string, lastRun: string, last: nat, steps: seq<Step>, key: Option<string>)
    requires NewRun(run, lastRun) && HarmlessRun(run, Start(lastRun, last), steps)
    requires PendingIsHandled(Exec(run, Start(lastRun, last), steps))
    ensures var s := Exec(run, Start(lastRun, last), steps);
            Plain(s.server.handled) == Plain(s.added) <==> NeverRepeats(run, Start(lastRun, last), steps)
    ensures var s := Exec(run, Start(lastRun, last), steps);
            Coalesces(key) ==> (Latest(s.server.handled, key) == Latest(s.added, key) <==> NewestWins(s.server.handled, key))
    ensures NeverSetBack(run, Start(lastRun, last), steps, key)
            ==> NewestWins(Exec(run, Start(lastRun, last), steps).server.handled, key)
  {
    var s := Exec(run, Start(lastRun, last), steps);
    AlwaysInv(run, lastRun, last, steps);
    PlainOnceInOrderIff(run, lastRun, last, steps);
    PlainRowsAgree(run, s);
    if Coalesces(key) { LatestRowsAgree(run, s, key); }
    if NeverSetBack(run, Start(lastRun, last), steps, key) { NewestWinsUnlessSetBack(run, lastRun, last, steps, key); }
  }

  /** In particular nothing else is needed while this runner's run is the only one. */
  lemma SoleRunRefinesLog(run: string, lastRun: string, last: nat, steps: seq<Step>, key: Option<string>)
    requires NewRun(run, lastRun) && HarmlessRun(run, Start(lastRun, last), steps) && NoOtherRun(steps)
    requires PendingIsHandled(Exec(run, Start(lastRun, last), steps))
    ensures var s := Exec(run, Start(lastRun, last), steps);
            && Plain(s.server.handled) == Plain(s.added)
            && (Coalesces(key) ==> Latest(s.server.handled, key) == Latest(s.added, key))
  {
    SoleRunIsOnTime(run, lastRun, last, steps);
    OnTimeIsFine(run, lastRun, last, steps, key);
    DrainedRefinesLog(run, lastRun, last, steps, key);
  }

  lemma PlainRowsAgree(run: string, s: State)
    requires Inv(run, s) && PendingIsHandled(s)
    ensures Plain(s.server.handled) == Plain(s.added) <==> Increasing(Plain(s.server.handled))
  {
    var h, all := Plain(s.server.handled), Plain(s.added);
    PlainIncreasing(s.added);
    forall x ensures x in h <==> x in all {
      if x in h { assert Logged(s.added, x); }
    }
    if Increasing(h) { SameRowsSameLog(h, all); }
  }

  lemma LatestRowsAgree(run: string, s: State, key: Option<string>)
    requires Inv(run, s) && Coalesces(key) && PendingIsHandled(s)
    ensures Latest(s.server.handled, key) == Latest(s.added, key) <==> NewestWins(s.server.handled, key)
  {
    assert forall x :: x in s.server.handled ==> Logged(s.added, x) && x in s.added;
    if Latest(s.added, key).Some? { NewestIsHandled(s, run, key); }
    LatestAgree(s.server.handled, s.added, key);
  }

  /** Of a part of a log in order that holds its newest row of the key. */
  lemma LatestAgree(part: seq<Row>, log: seq<Row>, key: Option<string>)
    requires Increasing(log) && (forall x :: x in part ==> x in log)
    requires Latest(log, key).Some? ==> Latest(log, key).value in part
    ensures Latest(part, key) == Latest(log, key) <==> NewestWins(part, key)
  {
    LatestIsNewest(log, key);
    LatestIsIn(part, key);
    if Latest(part, key).Some? && Latest(log, key).Some? {
      SameNumber(log, Latest(part, key).value, Latest(log, key).value);
    }
  }

  lemma SameNumber(log: seq<Row>, x: Row, y: Row)
    requires Increasing(log) && x in log && y in log
    ensures x.num == y.num ==> x == y
  {
  }

  lemma {:induction false} LatestIsIn(log: seq<Row>, key: Option<string>)
    ensures Latest(log, key).Some? ==> Latest(log, key).value in log && Latest(log, key).value.key == key
  {
    if log != [] { LatestIsIn(log[..|log| - 1], key); }
  }

  lemma NewestIsHandled(s: State, run: string, key: Option<string>)
    requires Inv(run, s) && Coalesces(key) && Latest(s.added, key).Some?
    requires PendingIsHandled(s)
    ensures Latest(s.added, key).value in s.server.handled
  {
    LatestIsNewest(s.added, key);
    var r := Latest(s.added, key).value;
    assert r in s.added;
    forall j | r.num <= j < |s.added| ensures s.added[j].key != r.key {
      assert s.added[j] in s.added;
    }
  }

  /** Another run of the same runner in between breaks this: its batch resets the watermark, and a delayed duplicate then
      overwrites newer data. */
  lemma OtherRunBreaksNewestWins(run: string, lastRun: string, other: string, older: Event, newer: Event)
    requires NewRun(run, lastRun) && other != run && other != "" && older != newer
    ensures var key := Some("k");
            var steps := [AddEvent(older, key), ReadBatch, AddEvent(newer, key), ReadBatch] + [Deliver(1), OtherRun(other, 0),
                          Deliver(0), Acknowledge(1)];
            var s := Exec(run, Start(lastRun, 0), steps);
            s.table.rows == [] && Latest(s.server.handled, key) != Latest(s.added, key)
  {
    var key := Some("k");
    var first := [AddEvent(older, key), ReadBatch, AddEvent(newer, key), ReadBatch];
    var s := TwoBatchesSent(run, lastRun, older, newer);
    var s' := StaleDuplicateArrives(run, s, other, Row(1, key, older), Row(2, key, newer));
    ExecFour(run, Start(lastRun, 0), first, Deliver(1), OtherRun(other, 0), Deliver(0), Acknowledge(1));
  }

  /** The functions on one row, spelled out. */
  lemma OneRow(r: Row, n: nat, key: Option<string>)
    ensures Fresh([r], n) == (if r.num <= n then [] else [r]) && Watermark([r], n) == (if r.num <= n then n else r.num)
    ensures Above([r], n) == (if r.num <= n then [] else [r]) && Without([r], key) == (if r.key == key then [] else [r])
    ensures Pending(Table([r], n), BATCH_LIMIT) == [r]
  {
    assert [r][1..] == [];
  }

  lemma TwoBatchesSent(run: string, lastRun: string, older: Event, newer: Event) returns (s: State)
    ensures var key := Some("k");
            s == Exec(run, Start(lastRun, 0), [AddEvent(older, key), ReadBatch, AddEvent(newer, key), ReadBatch])
    ensures var key := Some("k");
            var r1, r2 := Row(1, key, older), Row(2, key, newer);
            s == State(Table([r2], 3), [r1, r2], [[r1], [r2]], {}, Server(lastRun, 0, []))
  {
    var key := Some("k");
    var r1, r2 := Row(1, key, older), Row(2, key, newer);
    var s0 := Start(lastRun, 0);
    OneRow(r1, 2, key);
    OneRow(r2, 3, key);
    ExecFour(run, s0, [], AddEvent(older, key), ReadBatch, AddEvent(newer, key), ReadBatch);
    assert [] + [AddEvent(older, key), ReadBatch, AddEvent(newer, key), ReadBatch]
        == [AddEvent(older, key), ReadBatch, AddEvent(newer, key), ReadBatch];
    var s1 := Apply(run, s0, AddEvent(older, key));
    assert s1 == State(Table([r1], 2), [r1], [], {}, s0.server);
    var s2 := Apply(run, s1, ReadBatch);
    assert s2 == s1.(sent := [[r1]]);
    var s3 := Apply(run, s2, AddEvent(newer, key));
    assert s3 == State(Table([r2], 3), [r1, r2], [[r1]], {}, s0.server);
    s := Apply(run, s3, ReadBatch);
  }

  lemma StaleDuplicateArrives(run: string, s: State, other: string, r1: Row, r2: Row) returns (s': State)
    requires run != "" && run != s.server.lastRun && other != run && other != ""
    requires r1.num == 1 && r2.num == 2 && r1.key == r2.key && r1 != r2
    requires s.table == Table([r2], 3) && s.added == [r1, r2] && s.sent == [[r1], [r2]] && s.delivered == {}
    requires s.server.handled == []
    ensures s' == Apply(run, Apply(run, Apply(run, Apply(run, s, Deliver(1)), OtherRun(other, 0)), Deliver(0)), Acknowledge(1))
    ensures s'.table.rows == [] && Latest(s'.server.handled, r1.key) == Some(r1) && Latest(s'.added, r1.key) == Some(r2)
  {
    OneRow(r1, 0, None);
    OneRow(r2, 0, None);
    OneRow(r2, 2, None);
    var s1 := Apply(run, s, Deliver(1));
    assert s1.server == Server(run, 2, [r2]);
    var s2 := Apply(run, s1, OtherRun(other, 0));
    var s3 := Apply(run, s2, Deliver(0));
    assert s3.server.handled == [r2, r1];
    s' := Apply(run, s3, Acknowledge(1));
  }
}
