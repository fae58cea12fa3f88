/** The lease that keeps two cloud workers from processing one tenant at once: acquire_tenant_lease and
release_tenant_lease (backend/app/api/routes_platform.py), process_tenant and the keep-alive in _beat
(backend/runner/cloud_worker.py). */
module TenantLease {
  // One tenant, any number of workers with distinct ids, and processes that die.  Every request may be delayed or lost,
  // also after the worker that sent it has given up on it, died, or come back under its id.  A release is a read on the
  // server and, later, a delete that takes the key whoever holds it by then; a keep-alive sets the key only if it is
  // absent.  Time is in seconds.

  import opened Common

  type Worker = Key

  datatype Lease = Lease(holder: Worker, expires: int)

  /** The server bounds the lifetime a worker asks for. */
  function Ttl(asked: int): int {
    var low := if asked < 300 then asked else 300;
    if low > 30 then low else 30
  }

  predicate Live(lease: Option<Lease>, now: int) { lease.Some? && now < lease.value.expires }

  /** SET NX EX. */
  function SetIfAbsent(lease: Option<Lease>, w: Worker, now: int, asked: int): Option<Lease> {
    if Live(lease, now) then lease else Some(Lease(w, now + Ttl(asked)))
  }

  /** beats, unread and deletes are what is on its way: keep-alives; release requests the server has yet to read; deletes it
      has decided on.  A worker inside process_tenant, and a release, are filed under the lease that the worker entered on. */
  datatype State = State(now: int, lease: Option<Lease>, inside: map<Worker, int>, beats: multiset<Worker>,
                         unread: multiset<Lease>, deletes: multiset<Lease>)

  datatype Step =
    | Tick(d: nat)
    | Acquire(w: Worker, asked: int)
    | AcquireUnheard(w: Worker, asked: int)   // the server answers, the answer is lost
    | Beat(w: Worker)                         // a keep-alive leaves the worker
    | BeatLands(w: Worker, asked: int)        // and reaches the server, perhaps much later
    | BeatLost(w: Worker)
    | Release(w: Worker)                      // the last thing a worker does in process_tenant: the request leaves it
    | ReleaseRead(l: Lease)                   // the server reads the key and finds the name in the request, or not
    | ReleaseLost(l: Lease)
    | DeleteFails(l: Lease)
    | DeleteLands(l: Lease)                   // whatever has become of the worker since
    | Dies(w: Worker)                         // without a release

  function Apply(s: State, step: Step): State {
    match step
    case Tick(d) => s.(now := s.now + d)
    case Acquire(w, asked) =>
      if w in s.inside || Live(s.lease, s.now) then s
      else s.(lease := SetIfAbsent(s.lease, w, s.now, asked), inside := s.inside[w := s.now + Ttl(asked)])
    case AcquireUnheard(w, asked) => s.(lease := SetIfAbsent(s.lease, w, s.now, asked))
    case Beat(w) => if w in s.inside then s.(beats := s.beats + multiset{w}) else s
    case BeatLands(w, asked) =>
      if w in s.beats then s.(lease := SetIfAbsent(s.lease, w, s.now, asked), beats := s.beats - multiset{w}) else s
    case BeatLost(w) => s.(beats := s.beats - multiset{w})
    case Release(w) =>
      if w in s.inside then s.(inside := s.inside - {w}, unread := s.unread + multiset{Lease(w, s.inside[w])}) else s
    case ReleaseRead(l) =>
      if l !in s.unread then s
      else if Live(s.lease, s.now) && s.lease.value.holder == l.holder then
        s.(unread := s.unread - multiset{l}, deletes := s.deletes + multiset{l})
      else s.(unread := s.unread - multiset{l})
    case ReleaseLost(l) => s.(unread := s.unread - multiset{l})
    case DeleteFails(l) => s.(deletes := s.deletes - multiset{l})
    case DeleteLands(l) => if l in s.deletes then s.(lease := None, deletes := s.deletes - multiset{l}) else s
    case Dies(w) => s.(inside := s.inside - {w})
  }

  function Exec(s: State, steps: seq<Step>): State
    decreases steps
  {
    if steps == [] then s else Exec(Apply(s, steps[0]), steps[1..])
  }

  // ---------------------------------------------------------------- mutual exclusion

  predicate Inside(s: State, w: Worker) { w in s.inside }

  predicate Releasing(s: State, l: Lease) { l in s.unread || l in s.deletes }

  /** No cycle has outlasted the lease it entered on, from the acquisition to the end of its release: neither the worker inside
      nor a release on its way. */
  ghost predicate Timely(s: State) {
    && (forall w :: Inside(s, w) ==> s.now < s.inside[w])
    && (forall l :: Releasing(s, l) ==> s.now < l.expires)
  }

  ghost predicate TimelyRun(s: State, steps: seq<Step>)
    decreases steps
  {
    Timely(s) && (steps != [] ==> TimelyRun(Apply(s, steps[0]), steps[1..]))
  }

  /** A worker inside is the holder, on the very lease it entered on; so is a worker whose release is on its way; and there
      is one of these at most. */
  ghost predicate Holds(s: State) {
    && (forall w :: Inside(s, w) ==> s.lease == Some(Lease(w, s.inside[w])))
    && (forall l :: Releasing(s, l) ==> s.lease == Some(l))
    && |s.unread| + |s.deletes| <= 1
    && (forall w, l :: Inside(s, w) ==> !Releasing(s, l))
  }

  lemma NothingOnItsWay(s: State)
    requires Holds(s) && Timely(s) && !Live(s.lease, s.now)
    ensures s.unread == multiset{} && s.deletes == multiset{} && forall w :: !Inside(s, w)
  {
    forall l ensures l !in s.unread && l !in s.deletes {
      assert !Releasing(s, l);
    }
  }

  lemma ReleaseKeepsHolds(s: State, w: Worker)
    requires Holds(s)
    ensures Holds(Apply(s, Release(w)))
  {
    if Inside(s, w) {
      assert s.lease == Some(Lease(w, s.inside[w]));
      assert s.unread == multiset{} by { forall l ensures l !in s.unread { assert !Releasing(s, l); } }
      assert s.deletes == multiset{} by { forall l ensures l !in s.deletes { assert !Releasing(s, l); } }
      var s' := Apply(s, Release(w));
      forall v | Inside(s', v) ensures false { assert Inside(s, v); }
    }
  }

  lemma ReadKeepsHolds(s: State, l: Lease)
    requires Holds(s) && Timely(s)
    ensures Holds(Apply(s, ReleaseRead(l)))
  {
    var s' := Apply(s, ReleaseRead(l));
    if l in s.unread {
      assert Releasing(s, l);
      assert |s'.unread| == |s.unread| - 1;
      FewerReleases(s, s');
    }
  }

  lemma LandingKeepsHolds(s: State, l: Lease)
    requires Holds(s)
    ensures Holds(Apply(s, DeleteLands(l)))
  {
    var s' := Apply(s, DeleteLands(l));
    if l in s.deletes {
      assert Releasing(s, l);
      OnlyOne(s.unread, s.deletes, l);
      forall w ensures !Inside(s', w) { assert Inside(s, w) ==> !Releasing(s, l); }
    }
  }

  lemma LossKeepsHolds(s: State, l: Lease)
    requires Holds(s)
    ensures Holds(Apply(s, ReleaseLost(l))) && Holds(Apply(s, DeleteFails(l)))
  {
    FewerReleases(s, Apply(s, ReleaseLost(l)));
    FewerReleases(s, Apply(s, DeleteFails(l)));
  }

  lemma FewerReleases(s: State, s': State)
    requires Holds(s) && s'.lease == s.lease && forall w :: Inside(s', w) ==> Inside(s, w) && s'.inside[w] == s.inside[w]
    requires |s'.unread| + |s'.deletes| <= |s.unread| + |s.deletes| && forall l :: Releasing(s', l) ==> Releasing(s, l)
    ensures Holds(s')
  {
    forall w | Inside(s', w) ensures s'.lease == Some(Lease(w, s'.inside[w])) { assert Inside(s, w); }
    forall w, l | Inside(s', w) ensures !Releasing(s', l) { assert Inside(s, w) ==> !Releasing(s, l); }
  }

  lemma OnlyOne(a: multiset<Lease>, b: multiset<Lease>, l: Lease)
    requires |a| + |b| <= 1 && l in b
    ensures b == multiset{l} && a == multiset{}
  {
    assert b == (b - multiset{l}) + multiset{l};
  }

  lemma StepKeepsHolds(s: State, step: Step)
    requires Holds(s) && Timely(s)
    ensures Holds(Apply(s, step))
  {
    if step.ReleaseRead? {
      ReadKeepsHolds(s, step.l);
    } else if step.ReleaseLost? || step.DeleteFails? {
      LossKeepsHolds(s, step.l);
    } else if step.DeleteLands? {
      LandingKeepsHolds(s, step.l);
    } else if step.Release? {
      ReleaseKeepsHolds(s, step.w);
    } else if step.Acquire? || step.AcquireUnheard? || step.BeatLands? {
      SettingKeepsHolds(s, step);
    } else {
      FewerReleases(s, Apply(s, step));
    }
  }

  /** Whoever sets the key finds it free, and then nobody is inside and no release is on its way. */
  lemma SettingKeepsHolds(s: State, step: Step)
    requires Holds(s) && Timely(s) && (step.Acquire? || step.AcquireUnheard? || step.BeatLands?)
    ensures Holds(Apply(s, step))
  {
    var s' := Apply(s, step);
    if Live(s.lease, s.now) {
      FewerReleases(s, s');
    } else {
      NothingOnItsWay(s);
      assert forall w :: Inside(s', w) ==> step.Acquire? && w == step.w;
    }
  }

  lemma {:induction false} TimelyRunsHold(s: State, steps: seq<Step>)
    requires Holds(s) && TimelyRun(s, steps)
    ensures Holds(Exec(s, steps))
    decreases steps
  {
    if steps != [] {
      StepKeepsHolds(s, steps[0]);
      TimelyRunsHold(Apply(s, steps[0]), steps[1..]);
    }
  }

  /** Whatever the key holds at the start: if every cycle, from the acquisition to the moment its release has been read and
      has landed or is lost, is shorter than its lease, then no two workers are ever inside at once, and none is inside while
      the release of another is under way; although keep-alives of earlier cycles may land at any time. */
  lemma AtMostOneInside(now: int, lease: Option<Lease>, beats: multiset<Worker>, steps: seq<Step>, v: Worker, w: Worker,
                        l: Lease)
    requires TimelyRun(State(now, lease, map[], beats, multiset{}, multiset{}), steps)
    ensures var s := Exec(State(now, lease, map[], beats, multiset{}, multiset{}), steps);
            Inside(s, v) ==> (Inside(s, w) ==> v == w) && !Releasing(s, l)
  {
    var s0 := State(now, lease, map[], beats, multiset{}, multiset{});
    TimelyRunsHold(s0, steps);
    var s := Exec(s0, steps);
    if Inside(s, v) && Inside(s, w) {
      assert s.lease == Some(Lease(v, s.inside[v])) && s.lease == Some(Lease(w, s.inside[w]));
    }
  }

  // ---------------------------------------------------------------- what happens otherwise

  lemma ExecTwo(s: State, a: Step, b: Step)
    ensures Exec(s, [a, b]) == Apply(Apply(s, a), b)
  {
    assert [a, b][1..] == [b] && [b][1..] == [];
    assert Exec(Apply(Apply(s, a), b), []) == Apply(Apply(s, a), b);
  }

  lemma ExecFour(s: State, a: Step, b: Step, c: Step, d: Step)
    ensures Exec(s, [a, b, c, d]) == Apply(Apply(Apply(Apply(s, a), b), c), d)
  {
    assert [a, b, c, d][1..] == [b, c, d] && [b, c, d][1..] == [c, d];
    ExecTwo(Apply(Apply(s, a), b), c, d);
  }

  /** The bound is sharp for the worker: one that stays inside can be joined by another after exactly the rest of its lease. */
  lemma TakeoverIffOverrun(s: State, v: Worker, w: Worker, d: nat, asked: int)
    requires Holds(s) && Timely(s) && Inside(s, v) && !Inside(s, w)
    ensures var s' := Exec(s, [Tick(d), Acquire(w, asked)]);
            Inside(s', v) && (Inside(s', w) <==> s.now + d >= s.inside[v])
  {
    ExecTwo(s, Tick(d), Acquire(w, asked));
    assert s.lease == Some(Lease(v, s.inside[v]));
  }

  /** While a release is under way, another acquisition succeeds exactly from the moment its lease has run out. */
  lemma AcquireDuringRelease(s: State, l: Lease, w: Worker, d: nat, asked: int) returns (s': State)
    requires Holds(s) && Timely(s) && Releasing(s, l)
    ensures s' == Apply(Apply(s, Tick(d)), Acquire(w, asked)) && (forall v :: !Inside(s, v))
    ensures s'.now == s.now + d && s'.unread == s.unread && s'.deletes == s.deletes
    ensures s.now + d >= l.expires ==> s'.lease == Some(Lease(w, s'.now + Ttl(asked)))
                                       && s'.inside == map[w := s'.now + Ttl(asked)]
    ensures s.now + d < l.expires ==> s'.lease == Some(l) && s'.inside == map[]
  {
    assert s.lease == Some(l);
    forall v ensures !Inside(s, v) { assert Inside(s, v) ==> !Releasing(s, l); }
    assert s.inside == map[];
    s' := Apply(Apply(s, Tick(d)), Acquire(w, asked));
  }

  /** It is sharp for a delete on its way: d seconds later it removes the lease of a worker that has taken over, and lets a
      third one in beside it, if and only if its own lease has run out by then. */
  lemma LateDeleteHarmsIffRunOut(s: State, l: Lease, w: Worker, x: Worker, d: nat, asked: int)
    requires Holds(s) && Timely(s) && l in s.deletes && w != x
    ensures var s' := Exec(s, [Tick(d), Acquire(w, asked), DeleteLands(l), Acquire(x, asked)]);
            Inside(s', w) && Inside(s', x) <==> s.now + d >= l.expires
  {
    ExecFour(s, Tick(d), Acquire(w, asked), DeleteLands(l), Acquire(x, asked));
    assert Releasing(s, l);
    var s2 := AcquireDuringRelease(s, l, w, d, asked);
    var s3 := Apply(s2, DeleteLands(l));
    assert s3 == s2.(lease := None, deletes := s2.deletes - multiset{l});
  }

  /** And for a release the server has yet to read, when its worker comes back under its id: read d seconds later it takes the
      worker's new lease away, and lets another worker in, if and only if the old lease has run out by then. */
  lemma LateReleaseHarmsIffRunOut(s: State, l: Lease, x: Worker, d: nat, asked: int)
    requires Holds(s) && Timely(s) && l in s.unread && x != l.holder
    ensures var back := Apply(Apply(s, Tick(d)), Acquire(l.holder, asked));
            var s' := Exec(back, [ReleaseRead(l), DeleteLands(l), Acquire(x, asked), Tick(0)]);
            Inside(s', l.holder) && Inside(s', x) <==> s.now + d >= l.expires
  {
    assert Releasing(s, l);
    var back := AcquireDuringRelease(s, l, l.holder, d, asked);
    ExecFour(back, ReleaseRead(l), DeleteLands(l), Acquire(x, asked), Tick(0));
    assert Live(back.lease, back.now) && back.lease.value.holder == l.holder by { TtlPositive(asked); }
    var s1 := Apply(back, ReleaseRead(l));
    assert s1 == back.(unread := back.unread - multiset{l}, deletes := back.deletes + multiset{l});
    var s2 := Apply(s1, DeleteLands(l));
    assert s2.lease == None && s2.inside == back.inside;
  }

  lemma TtlPositive(asked: int)
    ensures 30 <= Ttl(asked) <= 300
  {
  }

  /** Keep-alives do not put these moments off: while the lease lives, none of them changes it. */
  lemma {:induction false} KeepAlivesDoNotExtend(s: State, v: Worker, steps: seq<Step>)
    requires Holds(s) && Inside(s, v)
    requires forall i :: 0 <= i < |steps| ==> steps[i].Beat? || steps[i].BeatLands? || steps[i].Tick?
    requires Exec(s, steps).now < s.inside[v]
    ensures Exec(s, steps).lease == s.lease && Exec(s, steps).inside == s.inside
    decreases steps
  {
    if steps != [] {
      TimePasses(Apply(s, steps[0]), steps[1..]);
      KeepAliveChangesNothing(s, v, steps[0]);
      KeepAlivesDoNotExtend(Apply(s, steps[0]), v, steps[1..]);
    }
  }

  lemma KeepAliveChangesNothing(s: State, v: Worker, step: Step)
    requires Holds(s) && Inside(s, v) && (step.Beat? || step.BeatLands? || step.Tick?)
    requires Apply(s, step).now < s.inside[v]
    ensures Apply(s, step).lease == s.lease && Apply(s, step).inside == s.inside && Holds(Apply(s, step))
  {
    assert s.lease == Some(Lease(v, s.inside[v]));
    FewerReleases(s, Apply(s, step));
  }

  lemma {:induction false} TimePasses(s: State, steps: seq<Step>)
    ensures Exec(s, steps).now >= s.now
    decreases steps
  {
    if steps != [] { TimePasses(Apply(s, steps[0]), steps[1..]); }
  }

  /** A keep-alive that lands after its worker has left takes the lease for nobody: until it runs out no worker gets in, not
      even its own. */
  lemma LateKeepAliveLocksEverybodyOut(s: State, v: Worker, w: Worker, asked: int, d: nat, asks: int)
    requires v in s.beats && !Live(s.lease, s.now) && !Inside(s, w)
    ensures var s' := Exec(s, [BeatLands(v, asked), Tick(d), Acquire(w, asks), Tick(0)]);
            Inside(s', w) <==> d >= Ttl(asked)
  {
    ExecFour(s, BeatLands(v, asked), Tick(d), Acquire(w, asks), Tick(0));
    var s2 := Apply(Apply(s, BeatLands(v, asked)), Tick(d));
    assert s2.lease == Some(Lease(v, s.now + Ttl(asked))) && s2.inside == s.inside;
  }

  // ---------------------------------------------------------------- the endpoints

  datatype Answer = Acquired(yes: bool) | BadRequest

  /** The key of one tenant and the requests that act on it.  A release is Read followed by Delete, and other requests may
      come in between. */
  class LeaseKey {
    var lease: Option<Lease>

    constructor ()
      ensures lease == None
    {
      lease := None;
    }

    /** A request without a worker id is refused. */
    method Acquire(worker: Option<Worker>, asked: int, now: int) returns (answer: Answer)
      modifies this
      ensures worker.None? ==> answer == BadRequest && lease == old(lease)
      ensures worker.Some? ==> answer == Acquired(!Live(old(lease), now))
                               && lease == SetIfAbsent(old(lease), worker.value, now, asked)
      ensures worker.Some? && answer.yes && 30 <= asked <= 300 ==> lease.value == Lease(worker.value, now + asked)
      ensures worker.Some? && answer.yes && asked < 30 ==> lease.value == Lease(worker.value, now + 30)
      ensures worker.Some? && answer.yes && asked > 300 ==> lease.value == Lease(worker.value, now + 300)
    {
      if worker.None? { return BadRequest; }
      var low := if asked < 300 then asked else 300;
      var ttl := if low > 30 then low else 30;
      var ok := !Live(lease, now);
      if ok { lease := Some(Lease(worker.value, now + ttl)); }
      answer := Acquired(ok);
    }

    method Read(worker: Worker, now: int) returns (mine: bool)
      ensures mine <==> Live(lease, now) && lease.value.holder == worker
    {
      mine := Live(lease, now) && lease.value.holder == worker;
    }

    method Delete()
      modifies this
      ensures lease == None
    {
      lease := None;
    }

    /** A release that nothing comes between: its own lease goes, another worker's stays. */
    method ReleaseUndisturbed(worker: Worker, now: int)
      modifies this
      ensures Live(lease, now) <==> Live(old(lease), now) && old(lease).value.holder != worker
      ensures Live(lease, now) ==> lease == old(lease)
    {
      var mine := Read(worker, now);
      if mine { Delete(); }
    }
  }
}
