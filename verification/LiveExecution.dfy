/** LIVE order execution (backend/app/execution/live.py): build, simulate, claim, submit, confirm, with any number of
executions interleaved over one claim store. */
module LiveExecution {
  // Every awaited call (chain, wallet, store) answers as it likes, the process may die between any two of them, and claims
  // survive it.  An execution takes one step per awaited call, so another one may act between the error of a call and the
  // release that follows it.

  import opened Common
  import opened Outbox

  datatype Status = REJECTED | TIMEOUT | PENDING_SIGNATURE | SUBMITTED | FAILED | FILLED | CRASHED

  /** Where an execution stands: the call it is waiting for. */
  datatype Phase =
    | Preflight
    | Building(attempt: nat)
    | Approving                // approve the router and repeat the preflight
    | Simulating
    | Claiming
    | Claimed                  // about to hand the transaction to the wallet
    | Submitting
    | Confirming
    | Parsing                  // the receipt has status 1
    | Releasing                // an unexpected error before the submission: release the key, claimed or not
    | Reverting                // the receipt has another status: release the key
    | Done(status: Status)

  /** How the awaited call ends. */
  datatype Event =
    | Passes
    | NeedsApproval            // build_swap_tx misses an allowance
    | Refuses                  // PolicyViolationError, IntegrationNotVerified, a failed first preflight or simulation
    | Breaks                   // any other exception
    | BreaksAfterClaim         // the claim call fails although the store made the claim
    | NeedsSignature           // the wallet wants a signature first
    | NoHash                   // accepted by the wallet, not on chain yet
    | NoReceipt                // no receipt in time
    | Reverts                  // a receipt with a status other than 1
    | Dies                     // the process ends

  datatype Execution = Execution(key: Key, phase: Phase)

  /** submits counts calls of wallet.submit, confirmed and reverts the receipts seen, fills the portfolio updates. */
  datatype State = State(claims: set<Key>, executions: map<nat, Execution>, submits: multiset<Key>,
                         reverts: multiset<Key>, confirmed: multiset<Key>, fills: multiset<Key>)

  datatype Step =
    | Start(e: nat, key: Key)
    | On(e: nat, event: Event)
    | Seed(key: Key)        // a claim is restored from the control plane

  /** The phase after an event, where it does not depend on the claim. */
  function NextPhase(phase: Phase, event: Event): Phase {
    if phase.Done? then phase
    else if event == Dies then Done(CRASHED)
    else match phase
      case Preflight => if event == Passes then Building(0) else Done(REJECTED)
      case Building(attempt) =>
        (match event
         case Passes => Simulating
         case NeedsApproval => if attempt == 0 then Approving else Done(REJECTED)
         case Refuses => Done(REJECTED)
         case _ => Releasing)
      case Approving => if event == Passes then Building(1) else if event == Refuses then Done(REJECTED) else Releasing
      case Simulating => if event == Passes then Claiming else if event == Refuses then Done(REJECTED) else Releasing
      case Claiming => if event == Passes then Claimed else if event == Refuses then Done(REJECTED) else Releasing
      case Claimed => Submitting
      case Submitting =>
        (match event
         case Passes => Confirming
         case NeedsSignature => Done(PENDING_SIGNATURE)
         case Refuses => Done(REJECTED)
         case _ => Done(TIMEOUT))
      case Confirming =>
        (match event
         case Passes => Parsing
         case NoHash => Done(SUBMITTED)
         case NoReceipt => Done(TIMEOUT)
         case Reverts => Reverting
         case _ => Done(CRASHED))
      case Parsing => if event == Passes then Done(FILLED) else Done(CRASHED)
      case Releasing => if event == Passes then Done(REJECTED) else Done(CRASHED)
      case Reverting => if event == Passes then Done(FAILED) else Done(CRASHED)
  }

  function Bump(counts: multiset<Key>, yes: bool, key: Key): multiset<Key> {
    if yes then counts + multiset{key} else counts
  }

  function Next(s: State, key: Key, phase: Phase, event: Event): Phase {
    if phase == Claiming && event == Passes && key in s.claims then Done(REJECTED) else NextPhase(phase, event)
  }

  /** What the event does to the store, the wallet, the chain and the portfolio. */
  function Books(s: State, key: Key, phase: Phase, event: Event): State {
    var next := Next(s, key, phase, event);
    var claims :=
      if phase == Claiming && (event == Passes || event == BreaksAfterClaim) then s.claims + {key}
      else if (phase == Releasing || phase == Reverting) && event == Passes then s.claims - {key}
      else s.claims;
    State(claims, s.executions,
          Bump(s.submits, phase == Claimed && next == Submitting, key),
          Bump(s.reverts, phase == Confirming && next == Reverting, key),
          Bump(s.confirmed, phase == Confirming && next == Parsing, key),
          Bump(s.fills, phase == Parsing && next == Done(FILLED), key))
  }

  function At(s: State, e: nat, key: Key, phase: Phase): State {
    s.(executions := s.executions[e := Execution(key, phase)])
  }

  function Advance(s: State, e: nat, event: Event): State
    requires e in s.executions
  {
    var Execution(key, phase) := s.executions[e];
    var books := Books(s, key, phase, event);
    books.(executions := s.executions[e := Execution(key, Next(s, key, phase, event))])
  }

  function Apply(s: State, step: Step): State {
    match step
    case Start(e, key) => if e in s.executions then s else s.(executions := s.executions[e := Execution(key, Preflight)])
    case On(e, event) => if e in s.executions then Advance(s, e, event) else s
    case Seed(key) => s.(claims := s.claims + {key})
  }

  function Exec(s: State, steps: seq<Step>): State
    decreases steps
  {
    if steps == [] then s else Exec(Apply(s, steps[0]), steps[1..])
  }

  const START := State({}, map[], multiset{}, multiset{}, multiset{}, multiset{})

  // ---------------------------------------------------------------- the invariant

  /** The phases in which an execution relies on its claim. */
  predicate Owns(phase: Phase) {
    phase.Claimed? || phase.Submitting? || phase.Confirming? || phase.Parsing? || phase.Reverting?
  }

  ghost predicate OwnedBy(s: State, e: nat, key: Key) {
    e in s.executions && s.executions[e].key == key && Owns(s.executions[e].phase)
  }

  /** A submission whose failure is not established. */
  function Open(s: State, key: Key): int { s.submits[key] as int - s.reverts[key] as int }

  ghost predicate KeyOk(s: State, key: Key) {
    && 0 <= Open(s, key) <= 1
    && s.fills[key] <= s.confirmed[key] <= Open(s, key)
    && (Open(s, key) == 1 ==> key in s.claims)
  }

  /** What an owner may rely on: its key is claimed, and how far its submission has come. */
  predicate PhaseOk(phase: Phase, claimed: bool, open: int, confirmed: int, fills: int) {
    Owns(phase) ==>
      && claimed
      && (open == 1 <==> !(phase.Claimed? || phase.Reverting?))
      && (phase.Submitting? || phase.Confirming? ==> confirmed == 0)
      && (phase.Parsing? ==> confirmed == 1 && fills == 0)
  }

  ghost predicate OwnerOk(s: State, e: nat) {
    e in s.executions ==>
      var Execution(key, phase) := s.executions[e];
      PhaseOk(phase, key in s.claims, Open(s, key), s.confirmed[key], s.fills[key])
  }

  ghost predicate Inv(s: State) {
    && (forall key :: KeyOk(s, key))
    && (forall e :: OwnerOk(s, e))
    && (forall e, e', key :: OwnedBy(s, e, key) && OwnedBy(s, e', key) ==> e == e')
  }

  /** Some execution relies on this claim, or relied on it and its submission may have gone through. */
  ghost predicate Held(s: State, key: Key) {
    Open(s, key) == 1 || exists e :: OwnedBy(s, e, key)
  }

  /** An execution that failed early releases a claim that is not its own. */
  ghost predicate ForeignRelease(s: State, step: Step) {
    && step.On? && step.event == Passes && step.e in s.executions
    && s.executions[step.e].phase == Releasing && Held(s, s.executions[step.e].key)
  }

  /** What one event does to the books of a key: to another key nothing. */
  lemma AdvanceBooks(s: State, e: nat, event: Event, key: Key)
    requires e in s.executions
    ensures var s', x := Advance(s, e, event), s.executions[e];
            var mine, next := key == x.key, s'.executions[e].phase;
            && Open(s', key) == Open(s, key) + (if mine && x.phase == Claimed && next == Submitting then 1 else 0)
                                             - (if mine && x.phase == Confirming && next == Reverting then 1 else 0)
            && s'.confirmed[key] == s.confirmed[key] + (if mine && x.phase == Confirming && next == Parsing then 1 else 0)
            && s'.fills[key] == s.fills[key] + (if mine && x.phase == Parsing && next == Done(FILLED) then 1 else 0)
            && (!mine ==> (key in s'.claims <==> key in s.claims))
  {
  }

  lemma AdvanceKeepsKeys(s: State, e: nat, event: Event, key: Key)
    requires Inv(s) && e in s.executions && !ForeignRelease(s, On(e, event))
    ensures KeyOk(Advance(s, e, event), key)
  {
    AdvanceBooks(s, e, event, key);
    assert KeyOk(s, key) && OwnerOk(s, e);
    if s.executions[e].key == key && Owns(s.executions[e].phase) { assert OwnedBy(s, e, key); }
  }

  lemma AdvanceKeepsOwners(s: State, e: nat, event: Event, f: nat)
    requires Inv(s) && e in s.executions && !ForeignRelease(s, On(e, event))
    ensures OwnerOk(Advance(s, e, event), f)
  {
    assert OwnerOk(s, e) && OwnerOk(s, f);
    if f == e {
      AdvanceKeepsOwnOwner(s, e, event);
    } else if f in s.executions && Owns(s.executions[f].phase) {
      var key := s.executions[f].key;
      assert OwnedBy(s, f, key);
      AdvanceBooks(s, e, event, key);
      if s.executions[e].key == key { assert !OwnedBy(s, e, key); }
    }
  }

  lemma NextPhaseOk(phase: Phase, event: Event, claimed: bool, open: int, confirmed: int, fills: int)
    requires PhaseOk(phase, claimed, open, confirmed, fills)
    requires 0 <= fills <= confirmed <= open <= 1 && (open == 1 ==> claimed)
    ensures var next := if phase == Claiming && event == Passes && claimed then Done(REJECTED) else NextPhase(phase, event);
            PhaseOk(next, claimed || phase == Claiming,
                    open + (if phase == Claimed && next == Submitting then 1 else 0)
                         - (if phase == Confirming && next == Reverting then 1 else 0),
                    confirmed + (if phase == Confirming && next == Parsing then 1 else 0),
                    fills + (if phase == Parsing && next == Done(FILLED) then 1 else 0))
  {
  }

  lemma AdvanceKeepsOwnOwner(s: State, e: nat, event: Event)
    requires Inv(s) && e in s.executions
    ensures OwnerOk(Advance(s, e, event), e)
  {
    var Execution(key, phase) := s.executions[e];
    assert OwnerOk(s, e) && KeyOk(s, key);
    AdvanceBooks(s, e, event, key);
    NextPhaseOk(phase, event, key in s.claims, Open(s, key), s.confirmed[key], s.fills[key]);
    var s' := Advance(s, e, event);
    var next := s'.executions[e].phase;
    assert Owns(next) ==> (key in s'.claims <==> key in s.claims || phase == Claiming);
  }

  lemma AdvanceKeepsSingleOwner(s: State, e: nat, event: Event, f: nat, g: nat, key: Key)
    requires Inv(s) && e in s.executions
    requires var s' := Advance(s, e, event); OwnedBy(s', f, key) && OwnedBy(s', g, key)
    ensures f == g
  {
    assert OwnerOk(s, f) && OwnerOk(s, g);
    assert f != e ==> OwnedBy(s, f, key);
    assert g != e ==> OwnedBy(s, g, key);
    var phase := s.executions[e].phase;
    if f == e && Owns(phase) { assert OwnedBy(s, f, key); }
    if g == e && Owns(phase) { assert OwnedBy(s, g, key); }
  }

  lemma StepKeepsInv(s: State, step: Step)
    requires Inv(s) && !ForeignRelease(s, step)
    ensures Inv(Apply(s, step))
  {
    var s' := Apply(s, step);
    if step.On? && step.e in s.executions {
      forall key ensures KeyOk(s', key) { AdvanceKeepsKeys(s, step.e, step.event, key); }
      forall f ensures OwnerOk(s', f) { AdvanceKeepsOwners(s, step.e, step.event, f); }
      forall f, g, key | OwnedBy(s', f, key) && OwnedBy(s', g, key) ensures f == g {
        AdvanceKeepsSingleOwner(s, step.e, step.event, f, g, key);
      }
    } else {
      forall key ensures KeyOk(s', key) { assert KeyOk(s, key); }
      forall f ensures OwnerOk(s', f) { assert OwnerOk(s, f); }
      forall f, g, key | OwnedBy(s', f, key) && OwnedBy(s', g, key) ensures f == g {
        assert OwnedBy(s, f, key) && OwnedBy(s, g, key);
      }
    }
  }

  /** The invariant survives a step exactly if the step is not a foreign release. */
  lemma BrokenOnlyByForeignRelease(s: State, step: Step)
    requires Inv(s)
    ensures Inv(Apply(s, step)) <==> !ForeignRelease(s, step)
  {
    if ForeignRelease(s, step) {
      var key := s.executions[step.e].key;
      var s' := Apply(s, step);
      if Open(s, key) == 1 {
        assert !KeyOk(s', key);
      } else {
        var f :| OwnedBy(s, f, key);
        assert !OwnerOk(s', f);
      }
    } else {
      StepKeepsInv(s, step);
    }
  }

  ghost predicate SafeRun(s: State, steps: seq<Step>)
    decreases steps
  {
    steps != [] ==> !ForeignRelease(s, steps[0]) && SafeRun(Apply(s, steps[0]), steps[1..])
  }

  lemma {:induction false} SafeRunsKeepInv(s: State, steps: seq<Step>)
    requires Inv(s) && SafeRun(s, steps)
    ensures Inv(Exec(s, steps))
    decreases steps
  {
    if steps != [] {
      StepKeepsInv(s, steps[0]);
      SafeRunsKeepInv(Apply(s, steps[0]), steps[1..]);
    }
  }

  lemma StartIsOk(claims: set<Key>)
    ensures Inv(START.(claims := claims))
  {
  }

  /** In every interleaving without a foreign release, whatever the calls answer and whichever claims are restored: the
      swap of a key is submitted at most once more than it definitively reverted, it fills at most once, and only on a
      receipt with status 1. */
  lemma AtMostOneOpenSubmission(claims: set<Key>, steps: seq<Step>, key: Key)
    requires SafeRun(START.(claims := claims), steps)
    ensures var s := Exec(START.(claims := claims), steps);
            && s.reverts[key] <= s.submits[key] <= s.reverts[key] + 1
            && s.fills[key] <= s.confirmed[key] <= s.submits[key] - s.reverts[key]
  {
    StartIsOk(claims);
    SafeRunsKeepInv(START.(claims := claims), steps);
    assert KeyOk(Exec(START.(claims := claims), steps), key);
  }

  /** A claim without an owner, say one restored after a restart, blocks its key: nothing but the release of an execution
      that failed early can let that swap be submitted again. */
  lemma {:induction false} OrphanedClaimsBlock(s: State, steps: seq<Step>, key: Key)
    requires Blocked(s, key) && NoEarlyRelease(s, steps, key)
    ensures Exec(s, steps).submits[key] == s.submits[key]
    decreases steps
  {
    if steps != [] {
      StaysBlocked(s, steps[0], key);
      OrphanedClaimsBlock(Apply(s, steps[0]), steps[1..], key);
    }
  }

  ghost predicate Blocked(s: State, key: Key) {
    key in s.claims && forall e :: !OwnedBy(s, e, key)
  }

  ghost predicate EarlyRelease(s: State, step: Step, key: Key) {
    && step.On? && step.event == Passes && step.e in s.executions
    && s.executions[step.e].key == key && s.executions[step.e].phase == Releasing
  }

  ghost predicate NoEarlyRelease(s: State, steps: seq<Step>, key: Key)
    decreases steps
  {
    steps != [] ==> !EarlyRelease(s, steps[0], key) && NoEarlyRelease(Apply(s, steps[0]), steps[1..], key)
  }

  lemma StaysBlocked(s: State, step: Step, key: Key)
    requires Blocked(s, key) && !EarlyRelease(s, step, key)
    ensures Blocked(Apply(s, step), key) && Apply(s, step).submits[key] == s.submits[key]
  {
    var s' := Apply(s, step);
    if step.On? && step.e in s.executions { assert !OwnedBy(s, step.e, key); }
    forall e ensures !OwnedBy(s', e, key) { assert !OwnedBy(s, e, key); }
  }

  // ---------------------------------------------------------------- what comes before the claim

  /** What an execution heard up to its claim if all of it went well: preflight, build, simulation and claim passed; at most
      the first build missed an allowance, and then the approval with the second preflight passed, and the second build. */
  predicate Cleared(heard: seq<Event>) {
    || (|heard| >= 4 && heard[..4] == [Passes, Passes, Passes, Passes])
    || (|heard| >= 6 && heard[..6] == [Passes, NeedsApproval, Passes, Passes, Passes, Passes])
  }

  /** The events of one execution in a run, after those before. */
  function Heard(s: State, steps: seq<Step>, e: nat, before: seq<Event>): seq<Event>
    decreases steps
  {
    if steps == [] then before else Heard(Apply(s, steps[0]), steps[1..], e, before + HeardNow(s, steps[0], e))
  }

  function HeardNow(s: State, step: Step, e: nat): seq<Event> {
    if step.On? && step.e == e && e in s.executions then [step.event] else []
  }

  /** The outcomes that a swap only has once it was handed to the wallet. */
  predicate WasSent(status: Status) {
    status == FILLED || status == FAILED || status == TIMEOUT || status == SUBMITTED || status == PENDING_SIGNATURE
  }

  /** What must have been heard to be in a phase. */
  predicate Came(phase: Phase, heard: seq<Event>) {
    match phase
    case Preflight => heard == []
    case Building(attempt) => heard == if attempt == 0 then [Passes] else [Passes, NeedsApproval, Passes]
    case Approving => heard == [Passes, NeedsApproval]
    case Simulating => heard == [Passes, Passes] || heard == [Passes, NeedsApproval, Passes, Passes]
    case Claiming => heard == [Passes, Passes, Passes] || heard == [Passes, NeedsApproval, Passes, Passes, Passes]
    case Releasing => true
    case Done(status) => WasSent(status) ==> Cleared(heard)
    case _ => Cleared(heard)
  }

  lemma NextCame(s: State, key: Key, phase: Phase, event: Event, heard: seq<Event>)
    requires Came(phase, heard)
    ensures Came(Next(s, key, phase, event), heard + [event])
  {
    if Cleared(heard) { StaysCleared(heard, [event]); }
  }

  lemma StaysCleared(heard: seq<Event>, more: seq<Event>)
    requires Cleared(heard)
    ensures Cleared(heard + more)
  {
    if heard[..4] == [Passes, Passes, Passes, Passes] {
      assert (heard + more)[..4] == heard[..4];
    } else {
      assert (heard + more)[..6] == heard[..6];
    }
  }

  predicate CameTo(s: State, e: nat, heard: seq<Event>) {
    if e in s.executions then Came(s.executions[e].phase, heard) else heard == []
  }

  lemma StepCame(s: State, step: Step, e: nat, heard: seq<Event>)
    requires CameTo(s, e, heard)
    ensures CameTo(Apply(s, step), e, heard + HeardNow(s, step, e))
  {
    if step.On? && step.e == e && e in s.executions {
      NextCame(s, s.executions[e].key, s.executions[e].phase, step.event, heard);
    } else {
      assert heard + [] == heard;
    }
  }

  lemma {:induction false} HeardLeadsThere(s: State, steps: seq<Step>, e: nat, before: seq<Event>)
    requires CameTo(s, e, before)
    ensures CameTo(Exec(s, steps), e, Heard(s, steps, e, before))
    decreases steps
  {
    if steps != [] {
      StepCame(s, steps[0], e, before);
      HeardLeadsThere(Apply(s, steps[0]), steps[1..], e, before + HeardNow(s, steps[0], e));
    }
  }

  /** In every run, whatever the others do and whichever claims are released: an execution that owns a claim, or whose swap
      was handed to the wallet, had passed its last preflight, its last build, its simulation and its claim. */
  lemma OnlyClearedIsSent(claims: set<Key>, steps: seq<Step>, e: nat)
    ensures var s0 := START.(claims := claims);
            var s := Exec(s0, steps);
            e in s.executions && (Owns(s.executions[e].phase)
                                  || (s.executions[e].phase.Done? && WasSent(s.executions[e].phase.status)))
            ==> Cleared(Heard(s0, steps, e, []))
  {
    HeardLeadsThere(START.(claims := claims), steps, e, []);
  }

  // ---------------------------------------------------------------- what a foreign release leads to

  lemma {:induction false} ExecJoin(s: State, a: seq<Step>, b: seq<Step>)
    ensures Exec(s, a + b) == Exec(Exec(s, a), b)
    decreases a
  {
    if a == [] {
      assert a + b == b;
    } else {
      assert (a + b)[1..] == a[1..] + b;
      ExecJoin(Apply(s, a[0]), a[1..], b);
    }
  }

  function Attempt(e: nat, key: Key): seq<Step> {
    [Start(e, key), On(e, Passes), On(e, Passes), On(e, Passes)] + [On(e, Passes), On(e, Passes)]
  }

  lemma ExecTwo(s: State, a: Step, b: Step)
    ensures Exec(s, [a, b]) == Apply(Apply(s, a), b)
  {
    assert [a, b][1..] == [b] && [b][1..] == [];
    assert Exec(Apply(Apply(s, a), b), []) == Apply(Apply(s, a), b);
  }

  lemma ExecFour(s: State, a: Step, b: Step, c: Step, d: Step)
    ensures Exec(s, [a, b, c, d]) == Apply(Apply(Apply(Apply(s, a), b), c), d)
  {
    ExecTwo(s, a, b);
    ExecTwo(Apply(Apply(s, a), b), c, d);
    ExecJoin(s, [a, b], [c, d]);
    assert [a, b] + [c, d] == [a, b, c, d];
  }

  lemma AtTwice(s: State, e: nat, key: Key, a: Phase, b: Phase)
    ensures At(At(s, e, key, a), e, key, b) == At(s, e, key, b)
  {
    assert s.executions[e := Execution(key, a)][e := Execution(key, b)] == s.executions[e := Execution(key, b)];
  }

  /** A step before the claim changes nothing but the phase. */
  lemma Moves(s: State, e: nat, key: Key, phase: Phase, next: Phase)
    requires phase in {Preflight, Building(0), Simulating} && next == NextPhase(phase, Passes)
    ensures Apply(At(s, e, key, phase), On(e, Passes)) == At(s, e, key, next)
  {
    AtTwice(s, e, key, phase, next);
  }

  lemma Claims(s: State, e: nat, key: Key)
    requires key !in s.claims
    ensures Apply(At(s, e, key, Claiming), On(e, Passes)) == At(s.(claims := s.claims + {key}), e, key, Claimed)
  {
    AtTwice(s, e, key, Claiming, Claimed);
  }

  lemma Submits(s: State, e: nat, key: Key)
    ensures Apply(At(s, e, key, Claimed), On(e, Passes)) == At(s.(submits := s.submits + multiset{key}), e, key, Submitting)
  {
    AtTwice(s, e, key, Claimed, Submitting);
  }

  lemma AttemptPrepares(s: State, e: nat, key: Key)
    requires e !in s.executions
    ensures var pass := On(e, Passes); Exec(s, [Start(e, key), pass, pass, pass]) == At(s, e, key, Claiming)
  {
    var pass := On(e, Passes);
    ExecFour(s, Start(e, key), pass, pass, pass);
    Moves(s, e, key, Preflight, Building(0));
    Moves(s, e, key, Building(0), Simulating);
    Moves(s, e, key, Simulating, Claiming);
  }

  /** The state in which e has claimed the key and called the wallet. */
  function Sent(s: State, e: nat, key: Key): State {
    At(s.(claims := s.claims + {key}, submits := s.submits + multiset{key}), e, key, Submitting)
  }

  lemma ClaimantSubmits(s: State, e: nat, key: Key)
    requires key !in s.claims
    ensures Exec(At(s, e, key, Claiming), [On(e, Passes), On(e, Passes)]) == Sent(s, e, key)
  {
    ExecTwo(At(s, e, key, Claiming), On(e, Passes), On(e, Passes));
    Claims(s, e, key);
    Submits(s.(claims := s.claims + {key}), e, key);
  }

  /** A fresh execution of an unclaimed key gets as far as submitting it. */
  lemma AttemptSubmits(s: State, e: nat, key: Key)
    requires e !in s.executions && key !in s.claims
    ensures Exec(s, Attempt(e, key)) == Sent(s, e, key)
  {
    var pass := On(e, Passes);
    ExecJoin(s, [Start(e, key), pass, pass, pass], [pass, pass]);
    AttemptPrepares(s, e, key);
    ClaimantSubmits(s, e, key);
  }

  /** The release an early failure makes, seen from the key's side. */
  lemma ReleaseFrees(s: State, e: nat)
    requires e in s.executions && (s.executions[e].phase == Releasing || s.executions[e].phase == Reverting)
    ensures var key := s.executions[e].key;
            var s' := Apply(s, On(e, Passes));
            && key !in s'.claims && s'.submits == s.submits && s'.reverts == s.reverts
            && s'.executions.Keys == s.executions.Keys
            && forall f :: f in s.executions && f != e ==> s'.executions[f] == s.executions[f]
  {
  }

  /** If an execution that had claimed the key before the release goes on, it submits next to the new one. */
  lemma ClaimedGoesOn(s: State, a: nat, f: nat, key: Key)
    requires a !in s.executions && key !in s.claims && f in s.executions && s.executions[f] == Execution(key, Claimed)
    ensures var s' := Exec(s, Attempt(a, key) + [On(f, Passes)]);
            s'.submits == s.submits + multiset{key, key} && s'.reverts == s.reverts
  {
    AttemptSubmits(s, a, key);
    ExecJoin(s, Attempt(a, key), [On(f, Passes)]);
    ExecOne(Sent(s, a, key), On(f, Passes));
    AtAnother(s, a, f, key);
  }

  lemma AtAnother(s: State, a: nat, f: nat, key: Key)
    requires f in s.executions && a != f
    ensures f in Sent(s, a, key).executions && Sent(s, a, key).executions[f] == s.executions[f]
  {
  }

  /** If an execution that saw its swap revert goes on, it releases the key under the new one, and a third may submit. */
  lemma RevertingGoesOn(s: State, a: nat, b: nat, f: nat, key: Key)
    requires a !in s.executions && b !in s.executions && a != b && key !in s.claims
    requires f in s.executions && s.executions[f] == Execution(key, Reverting)
    ensures var s' := Exec(s, Attempt(a, key) + ([On(f, Passes)] + Attempt(b, key)));
            s'.submits == s.submits + multiset{key, key} && s'.reverts == s.reverts
  {
    AttemptSubmits(s, a, key);
    var s1 := Sent(s, a, key);
    AtAnother(s, a, f, key);
    ExecJoin(s, Attempt(a, key), [On(f, Passes)] + Attempt(b, key));
    ExecJoin(s1, [On(f, Passes)], Attempt(b, key));
    ExecOne(s1, On(f, Passes));
    ReleaseFrees(s1, f);
    AttemptSubmits(Apply(s1, On(f, Passes)), b, key);
  }

  /** Every foreign release lets the swap of its key be submitted a second time while the first submission is open: for
      any state it happens in there is a continuation that does so. */
  lemma ForeignReleaseDoubles(s: State, step: Step, a: nat, b: nat) returns (more: seq<Step>)
    requires Inv(s) && ForeignRelease(s, step)
    requires a !in s.executions && b !in s.executions && a != b
    ensures var key := s.executions[step.e].key;
            var s' := Exec(Apply(s, step), more);
            s'.submits[key] == s'.reverts[key] + 2
  {
    var e, key := step.e, s.executions[step.e].key;
    var s1 := Apply(s, step);
    ReleaseFrees(s, e);
    assert KeyOk(s, key);
    if Open(s, key) == 1 {
      more := Attempt(a, key);
      AttemptSubmits(s1, a, key);
    } else {
      var f :| OwnedBy(s, f, key);
      assert OwnerOk(s, f) && f != e && s1.executions[f] == s.executions[f];
      if s.executions[f].phase == Claimed {
        more := Attempt(a, key) + [On(f, Passes)];
        ClaimedGoesOn(s1, a, f, key);
      } else {
        more := Attempt(a, key) + ([On(f, Passes)] + Attempt(b, key));
        RevertingGoesOn(s1, a, b, f, key);
      }
    }
  }

  lemma ExecOne(s: State, step: Step)
    ensures Exec(s, [step]) == Apply(s, step)
  {
    assert [step][1..] == [];
  }

  /** While a submission is open, a second execution of its key that breaks early comes to a foreign release. */
  lemma ForeignReleaseIsReachable(s: State, e: nat, key: Key)
    requires Inv(s) && Open(s, key) == 1 && e !in s.executions
    ensures var s' := Exec(s, [Start(e, key), On(e, Passes)] + [On(e, Breaks)]);
            Inv(s') && ForeignRelease(s', On(e, Passes)) && s'.executions[e].key == key
  {
    ExecJoin(s, [Start(e, key), On(e, Passes)], [On(e, Breaks)]);
    ExecTwo(s, Start(e, key), On(e, Passes));
    var s1 := Apply(s, Start(e, key));
    StepKeepsInv(s, Start(e, key));
    StepKeepsInv(s1, On(e, Passes));
    var s2 := Apply(s1, On(e, Passes));
    assert s2.executions[e] == Execution(key, Building(0));
    StepKeepsInv(s2, On(e, Breaks));
    ExecOne(s2, On(e, Breaks));
    var s3 := Apply(s2, On(e, Breaks));
    assert s3.executions[e] == Execution(key, Releasing) && Open(s3, key) == 1;
  }

  // ---------------------------------------------------------------- the program

  /** All steps of one execution, undisturbed. */
  function Script(e: nat, key: Key, events: seq<Event>): seq<Step> {
    [Start(e, key)] + seq(|events|, i requires 0 <= i < |events| => On(e, events[i]))
  }

  /** The execution e of key, begun in s: the calls so far and where it stands. */
  datatype Track = Track(s: State, e: nat, key: Key, events: seq<Event>, base: State, phase: Phase)

  /** The calls so far, with nothing else in between, lead where the track is. */
  ghost predicate Tracks(t: Track) {
    forall steps :: steps == Script(t.e, t.key, t.events) ==> Exec(t.s, steps) == At(t.base, t.e, t.key, t.phase)
  }

  ghost function Turn(t: Track, event: Event): Track {
    t.(events := t.events + [event], base := Books(t.base, t.key, t.phase, event),
       phase := Next(t.base, t.key, t.phase, event))
  }

  lemma StepAt(base: State, e: nat, key: Key, phase: Phase, event: Event)
    ensures Apply(At(base, e, key, phase), On(e, event))
         == At(Books(base, key, phase, event), e, key, Next(base, key, phase, event))
  {
    AtTwice(base, e, key, phase, Next(base, key, phase, event));
  }

  lemma ScriptMore(s: State, e: nat, key: Key, events: seq<Event>, event: Event)
    ensures Exec(s, Script(e, key, events + [event])) == Apply(Exec(s, Script(e, key, events)), On(e, event))
  {
    var script := Script(e, key, events);
    assert Script(e, key, events + [event]) == script + [On(e, event)];
    ExecJoin(s, script, [On(e, event)]);
    ExecOne(Exec(s, script), On(e, event));
  }

  lemma TurnTracks(t: Track, event: Event)
    requires Tracks(t)
    ensures Tracks(Turn(t, event))
  {
    ScriptMore(t.s, t.e, t.key, t.events, event);
    StepAt(t.base, t.e, t.key, t.phase, event);
  }

  /** The first n answers. */
  function Asked(answer: nat -> Answer, n: nat): seq<Event> {
    if n == 0 then [] else Asked(answer, n - 1) + [answer(n - 1)]
  }

  /** How a call can end while the process lives. */
  type Answer = event: Event | event != Dies witness Passes

  /** All went well before the claim, which is the n-th call. */
  predicate Ready(answer: nat -> Answer, n: nat) {
    && answer(0) == Passes
    && (|| (n == 3 && answer(1) == Passes && answer(2) == Passes)
        || (n == 5 && answer(1) == NeedsApproval && answer(2) == Passes && answer(3) == Passes && answer(4) == Passes))
  }

  /** The call that keeps an execution from getting to its claim, or the claim itself. */
  function Stop(answer: nat -> Answer): nat {
    if answer(0) != Passes then 0
    else if answer(1) != Passes && answer(1) != NeedsApproval then 1
    else if answer(2) != Passes then 2
    else if answer(1) == Passes || answer(3) != Passes then 3
    else if answer(4) != Passes then 4
    else 5
  }

  /** The n-th call, at which it stops, fails in a way that nobody foresaw, and so the key is released. */
  predicate Unforeseen(answer: nat -> Answer, n: nat) {
    n > 0 && answer(n) != Passes && answer(n) != Refuses
    && !(n == 3 && answer(1) == NeedsApproval && answer(3) == NeedsApproval)
  }

  /** After a claim that was the n-th call: the wallet takes the swap, the chain answers with this receipt, and the last call,
      the parsing of the fill or the release of the key, goes well. */
  predicate SentOutcome(answer: nat -> Answer, n: nat, receipt: Event) {
    answer(n + 2) == Passes && answer(n + 3) == receipt && answer(n + 4) == Passes
  }

  /** What is reported while the outcome is open: a signature is missing, the wallet refused or its answer is in doubt, the
      swap is not on chain yet, or no receipt came in time. */
  predicate OpenOutcome(answer: nat -> Answer, n: nat, status: Status) {
    var wallet, chain := answer(n + 2), answer(n + 3);
    && (wallet == NeedsSignature ==> status == PENDING_SIGNATURE)
    && (wallet == Refuses ==> status == REJECTED)
    && (wallet != Passes && wallet != NeedsSignature && wallet != Refuses ==> status == TIMEOUT)
    && (wallet == Passes && chain == NoHash ==> status == SUBMITTED)
    && (wallet == Passes && chain == NoReceipt ==> status == TIMEOUT)
  }

  /** The answers heard up to the claim. */
  lemma ReadyIsCleared(answer: nat -> Answer)
    ensures Ready(answer, Stop(answer)) && answer(Stop(answer)) == Passes <==> Cleared(Asked(answer, 6))
    ensures forall n :: Ready(answer, n) ==> n == Stop(answer)
  {
    AskedTwo(answer, 0);
    AskedTwo(answer, 2);
    AskedTwo(answer, 4);
    var h := Asked(answer, 6);
    assert h == [answer(0), answer(1), answer(2), answer(3), answer(4), answer(5)];
    assert h[..4] == [answer(0), answer(1), answer(2), answer(3)] && h[..6] == h;
  }

  predicate BeforeClaim(phase: Phase) {
    phase == Preflight || phase.Building? || phase == Approving || phase == Simulating
  }

  lemma BooksIdle(s: State, key: Key, phase: Phase, event: Event)
    requires BeforeClaim(phase)
    ensures Books(s, key, phase, event) == s && Next(s, key, phase, event) == NextPhase(phase, event)
  {
  }

  /** The track has gone on, and nothing but its phase has changed. */
  ghost predicate Later(t: Track, t': Track) {
    Tracks(t') && t' == t.(events := t'.events, phase := t'.phase)
  }

  lemma TurnEarly(t: Track, event: Event)
    requires Tracks(t) && BeforeClaim(t.phase)
    ensures Later(t, Turn(t, event)) && Turn(t, event).phase == NextPhase(t.phase, event)
  {
    TurnTracks(t, event);
    BooksIdle(t.base, t.key, t.phase, event);
  }

  /** The next answer moves the track on by one call. */
  lemma TurnAsked(t0: Track, t: Track, answer: nat -> Answer, used: nat)
    requires Later(t0, t) && BeforeClaim(t.phase) && t.events == Asked(answer, used)
    ensures var t' := Turn(t, answer(used));
            Later(t0, t') && t'.events == Asked(answer, used + 1) && t'.phase == NextPhase(t.phase, answer(used))
  {
    TurnEarly(t, answer(used));
  }

  lemma SubmitTurns(t: Track, answer: nat -> Answer, used: nat)
    requires Tracks(t) && t.phase == Claimed && t.events == Asked(answer, used)
    ensures var t' := Turn(Turn(t, answer(used)), answer(used + 1));
            && Tracks(t') && SameRun(t, t') && t'.events == Asked(answer, used + 2)
            && t'.base == t.base.(submits := t.base.submits + multiset{t.key})
            && t'.phase == NextPhase(Submitting, answer(used + 1))
  {
    TurnTracks(t, answer(used));
    TurnTracks(Turn(t, answer(used)), answer(used + 1));
    SubmitBooks(t, answer(used), answer(used + 1));
    AskedTwo(answer, used);
  }

  lemma SubmitBooks(t: Track, call: Event, answer: Event)
    requires t.phase == Claimed && call != Dies && answer != Dies
    ensures var t' := Turn(Turn(t, call), answer);
            && t' == t.(events := t'.events, base := t.base.(submits := t.base.submits + multiset{t.key}), phase := t'.phase)
            && t'.phase == NextPhase(Submitting, answer)
  {
  }

  lemma ReceiptBooks(t: Track, receipt: Event)
    requires t.phase == Confirming
    ensures var t' := Turn(t, receipt);
            && t'.phase == NextPhase(Confirming, receipt)
            && t'.base.claims == t.base.claims && t'.base.submits == t.base.submits && t'.base.fills == t.base.fills
  {
  }

  /** The last call: the release after a revert, or the reading of the receipt. */
  lemma FinalBooks(t: Track, answer: Event)
    requires t.phase == Reverting || t.phase == Parsing || t.phase == Releasing
    ensures var t' := Turn(t, answer);
            && t'.phase == NextPhase(t.phase, answer) && t'.base.submits == t.base.submits
            && t'.base.claims == (if answer == Passes && t.phase != Parsing then t.base.claims - {t.key} else t.base.claims)
            && t'.base.fills == Bump(t.base.fills, answer == Passes && t.phase == Parsing, t.key)
  {
  }

  predicate SameRun(t: Track, t': Track) {
    t'.s == t.s && t'.e == t.e && t'.key == t.key
  }

  class LiveEngine {
    const store: LocalStore
    var sent: seq<Key>         // the keys of the swaps handed to the wallet
    var portfolio: seq<Key>    // the keys of the fills booked

    constructor (store: LocalStore)
      ensures this.store == store && sent == [] && portfolio == []
    {
      this.store := store;
      sent, portfolio := [], [];
    }

    /** The model's state is the store's table and the histories of this engine. */
    ghost predicate Holds(s: State)
      reads this, store
    {
      s.claims == store.idempotency.Keys && s.submits == multiset(sent) && s.fills == multiset(portfolio)
    }

    ghost predicate Synced(t: Track)
      reads this, store
    {
      Tracks(t) && Holds(t.base)
    }

    /** One turn of the loop of Build.  None: the transaction is approved and the loop goes on. */
    method Attempt(attempt: nat, answer: nat -> Answer, start: nat, ghost t: Track)
      returns (result: Option<Event>, used: nat, ghost t': Track)
      requires Tracks(t) && attempt < 2 && t.phase == Building(attempt) && t.events == Asked(answer, start)
      ensures Later(t, t') && t'.events == Asked(answer, used)
      ensures used == if attempt == 0 && answer(start) == NeedsApproval then start + 2 else start + 1
      ensures result.None? <==> used == start + 2 && answer(start + 1) == Passes
      ensures match result
              case None => t'.phase == Building(1)
              case Some(r) =>
                && t'.phase == (if r == Passes then Simulating else if r == Refuses then Done(REJECTED) else Releasing)
                && (r == Passes || r == Refuses || r == Breaks)
                && (r == Passes <==> answer(used - 1) == Passes)
                && (r == Refuses <==> answer(used - 1) == Refuses
                                      || (attempt == 1 && answer(used - 1) == NeedsApproval))
    {
      var build := answer(start);
      TurnAsked(t, t, answer, start);
      t', used := Turn(t, build), start + 1;
      if build == Passes { return Some(Passes), used, t'; }
      if build != NeedsApproval { return Some(if build == Refuses then Refuses else Breaks), used, t'; }
      if attempt >= 1 { return Some(Refuses), used, t'; }
      var approval := answer(used);
      TurnAsked(t, t', answer, used);
      t', used := Turn(t', approval), used + 1;
      if approval != Passes { return Some(if approval == Refuses then Refuses else Breaks), used, t'; }
      result := None;
    }

    /** Build the transaction; if an allowance is missing, approve, repeat the preflight and build once more.  answer(i) is
        how the i-th awaited call of the execution ends, used counts them.  Passes means built; otherwise the result is the
        exception that ends the attempt. */
    method Build(answer: nat -> Answer, start: nat, ghost t: Track) returns (result: Event, used: nat, ghost t': Track)
      requires Tracks(t) && t.phase == Building(0) && t.events == Asked(answer, start)
      ensures Later(t, t') && t'.events == Asked(answer, used)
      ensures result == Passes || result == Refuses || result == Breaks
      ensures t'.phase == if result == Passes then Simulating else if result == Refuses then Done(REJECTED) else Releasing
      ensures used == if answer(start) != NeedsApproval then start + 1 else if answer(start + 1) != Passes then start + 2
                      else start + 3
      ensures result == Passes <==> answer(used - 1) == Passes
      ensures result == Refuses <==> answer(used - 1) == Refuses || (used == start + 3 && answer(used - 1) == NeedsApproval)
    {
      t', used := t, start;
      var attempt := 0;
      while attempt < 2
        invariant 0 <= attempt < 2 && used == start + 2 * attempt
        invariant attempt == 1 ==> answer(start) == NeedsApproval && answer(start + 1) == Passes
        invariant Later(t, t') && t'.phase == Building(attempt) && t'.events == Asked(answer, used)
        decreases 2 - attempt
      {
        var r;
        r, used, t' := Attempt(attempt, answer, used, t');
        if r.Some? { return r.value, used, t'; }
        attempt := attempt + 1;
      }
    }

    /** Everything before the claim.  Passes means that the transaction is built and its simulation went well. */
    method Prepare(answer: nat -> Answer, ghost t: Track) returns (result: Event, used: nat, ghost t': Track)
      requires Tracks(t) && t.phase == Preflight && t.events == []
      ensures Later(t, t') && t'.events == Asked(answer, used)
      ensures t'.phase == if result == Passes then Claiming else if result == Breaks then Releasing else Done(REJECTED)
      ensures result == Passes <==> Ready(answer, used)
      ensures result == Passes ==> used == Stop(answer)
      ensures result != Passes ==> used == Stop(answer) + 1 && !Ready(answer, Stop(answer))
      ensures result == Breaks <==> result != Passes && Unforeseen(answer, used - 1)
    {
      var preflight := answer(0);
      TurnEarly(t, preflight);
      t', used := Turn(t, preflight), 1;
      assert t'.events == Asked(answer, 1);
      if preflight != Passes { return Refuses, used, t'; }
      ghost var built;
      result, used, built := Build(answer, 1, t');
      t' := built;
      if result != Passes { return; }
      var simulation := answer(used);
      TurnEarly(t', simulation);
      t', used := Turn(t', simulation), used + 1;
      result := if simulation == Passes || simulation == Refuses then simulation else Breaks;
    }

    /** t' is a later point of the execution t, after so many calls. */
    ghost predicate Reaches(t: Track, t': Track, answer: nat -> Answer, used: nat)
      reads this, store
    {
      Synced(t') && SameRun(t, t') && t'.events == Asked(answer, used)
    }

    /** The release of a key: with Passes the store deletes the claim, otherwise the call fails and the error escapes. */
    method Release(key: Key, answer: nat -> Answer, used: nat, ghost t: Track) returns (ghost t': Track)
      requires Reaches(t, t, answer, used) && t.key == key && (t.phase == Releasing || t.phase == Reverting)
      modifies store`idempotency
      ensures Reaches(t, t', answer, used + 1) && t'.phase == NextPhase(t.phase, answer(used))
      ensures store.idempotency == if answer(used) == Passes then old(store.idempotency) - {key} else old(store.idempotency)
    {
      if answer(used) == Passes { store.IdemRelease(key); }
      TurnTracks(t, answer(used));
      FinalBooks(t, answer(used));
      t' := Turn(t, answer(used));
    }

    /** The claim.  A claim that is refused or made by somebody else ends the execution. */
    method Claim(key: Key, answer: nat -> Answer, used: nat, ghost t: Track) returns (phase: Phase, ghost t': Track)
      requires Reaches(t, t, answer, used) && t.key == key && t.phase == Claiming
      modifies store`idempotency
      ensures Reaches(t, t', answer, used + 1) && t'.phase == phase
      ensures phase == Claimed <==> answer(used) == Passes && key !in old(store.idempotency)
      ensures phase == Claimed || phase == Releasing || phase == Done(REJECTED)
      ensures phase == Releasing <==> answer(used) != Passes && answer(used) != Refuses
      ensures phase == Claimed ==> store.idempotency == old(store.idempotency)[key := None]
      ensures phase == Done(REJECTED) ==> store.idempotency == old(store.idempotency)
      ensures store.idempotency - {key} == old(store.idempotency) - {key}
    {
      var reply := answer(used);
      var claimed := false;
      if reply == Passes || reply == BreaksAfterClaim { claimed := store.IdemClaim(key); }
      TurnTracks(t, reply);
      t' := Turn(t, reply);
      phase := if reply == Passes then (if claimed then Claimed else Done(REJECTED))
               else if reply == Refuses then Done(REJECTED) else Releasing;
    }

    /** Hand the transaction to the wallet: the model counts the call when it is made (the first of the two answers, which
        only says that the process lives to make it) and again when it returns. */
    method Submit(key: Key, answer: nat -> Answer, used: nat, ghost t: Track) returns (phase: Phase, ghost t': Track)
      requires Reaches(t, t, answer, used) && t.key == key && t.phase == Claimed
      modifies this`sent
      ensures Reaches(t, t', answer, used + 2) && t'.phase == phase && sent == old(sent) + [key]
      ensures phase == NextPhase(Submitting, answer(used + 1))
    {
      sent := sent + [key];
      SubmitTurns(t, answer, used);
      t' := Turn(Turn(t, answer(used)), answer(used + 1));
      phase := match answer(used + 1)
        case Passes => Confirming
        case NeedsSignature => Done(PENDING_SIGNATURE)
        case Refuses => Done(REJECTED)
        case _ => Done(TIMEOUT);
    }

    /** Read the receipt of a confirmed swap and book what it really filled. */
    method Finish(key: Key, answer: nat -> Answer, used: nat, ghost t: Track) returns (ghost t': Track)
      requires Reaches(t, t, answer, used) && t.key == key && t.phase == Parsing
      modifies this`portfolio
      ensures Reaches(t, t', answer, used + 1) && t'.phase == NextPhase(Parsing, answer(used))
      ensures portfolio == if answer(used) == Passes then old(portfolio) + [key] else old(portfolio)
    {
      if answer(used) == Passes { portfolio := portfolio + [key]; }
      TurnTracks(t, answer(used));
      FinalBooks(t, answer(used));
      t' := Turn(t, answer(used));
    }

    /** Wait for the receipt. */
    method AwaitReceipt(key: Key, answer: nat -> Answer, used: nat, ghost t: Track) returns (phase: Phase, ghost t': Track)
      requires Reaches(t, t, answer, used) && t.key == key && t.phase == Confirming
      ensures Reaches(t, t', answer, used + 1) && t'.phase == phase == NextPhase(Confirming, answer(used))
      ensures match answer(used)
              case Passes => phase == Parsing
              case Reverts => phase == Reverting
              case NoHash => phase == Done(SUBMITTED)
              case NoReceipt => phase == Done(TIMEOUT)
              case _ => phase == Done(CRASHED)
    {
      TurnTracks(t, answer(used));
      ReceiptBooks(t, answer(used));
      t' := Turn(t, answer(used));
      phase := match answer(used)
        case NoHash => Done(SUBMITTED)
        case NoReceipt => Done(TIMEOUT)
        case Reverts => Reverting
        case Passes => Parsing
        case _ => Done(CRASHED);
    }

    /** Only a definitive revert gives the key back, only a receipt with status 1 is booked. */
    method Confirm(key: Key, answer: nat -> Answer, start: nat, ghost t: Track)
      returns (status: Status, used: nat, ghost t': Track)
      requires Reaches(t, t, answer, start) && t.key == key && t.phase == Confirming
      modifies this`portfolio, store`idempotency
      ensures Reaches(t, t', answer, used) && t'.phase == Done(status)
      ensures status == FILLED <==> answer(start) == Passes && answer(start + 1) == Passes
      ensures status == FAILED <==> answer(start) == Reverts && answer(start + 1) == Passes
      ensures (answer(start) == NoHash ==> status == SUBMITTED) && (answer(start) == NoReceipt ==> status == TIMEOUT)
      ensures portfolio == if status == FILLED then old(portfolio) + [key] else old(portfolio)
      ensures store.idempotency == if status == FAILED then old(store.idempotency) - {key} else old(store.idempotency)
    {
      var phase;
      phase, t' := AwaitReceipt(key, answer, start, t);
      used := start + 1;
      if phase == Reverting {
        t' := Release(key, answer, used, t');
        status, used := if answer(used) == Passes then FAILED else CRASHED, used + 1;
      } else if phase == Parsing {
        t' := Finish(key, answer, used, t');
        status, used := if answer(used) == Passes then FILLED else CRASHED, used + 1;
      } else {
        status := phase.status;
      }
    }

    /** An unexpected error before the submission: the key is released, whoever claimed it. */
    method GiveUp(key: Key, answer: nat -> Answer, used: nat, ghost t: Track) returns (status: Status, ghost t': Track)
      requires Reaches(t, t, answer, used) && t.key == key && t.phase == Releasing
      modifies store`idempotency
      ensures Reaches(t, t', answer, used + 1) && t'.phase == Done(status)
      ensures status == if answer(used) == Passes then REJECTED else CRASHED
      ensures store.idempotency == if answer(used) == Passes then old(store.idempotency) - {key} else old(store.idempotency)
    {
      t' := Release(key, answer, used, t);
      status := if answer(used) == Passes then REJECTED else CRASHED;
    }

    /** From the submission on. */
    method Send(key: Key, answer: nat -> Answer, start: nat, ghost t: Track)
      returns (status: Status, used: nat, ghost t': Track)
      requires Reaches(t, t, answer, start) && t.key == key && t.phase == Claimed && start > 0
      modifies this, store`idempotency
      ensures Reaches(t, t', answer, used) && t'.phase == Done(status) && sent == old(sent) + [key]
      ensures portfolio == (if status == FILLED then old(portfolio) + [key] else old(portfolio))
      ensures store.idempotency == if status == FAILED then old(store.idempotency) - {key} else old(store.idempotency)
      ensures status == FILLED <==> SentOutcome(answer, start - 1, Passes)
      ensures status == FAILED <==> SentOutcome(answer, start - 1, Reverts)
      ensures OpenOutcome(answer, start - 1, status)
    {
      var phase;
      phase, t' := Submit(key, answer, start, t);
      used := start + 2;
      if phase.Done? {
        status := phase.status;
      } else {
        status, used, t' := Confirm(key, answer, used, t');
      }
    }

    /** The claim, and what becomes of the execution if it does not get it. */
    method Secure(key: Key, answer: nat -> Answer, start: nat, ghost t: Track)
      returns (status: Status, tried: bool, used: nat, ghost t': Track)
      requires Reaches(t, t, answer, start) && t.key == key && t.phase == Claiming
      modifies store`idempotency
      ensures Reaches(t, t', answer, used) && t'.phase == (if tried then Claimed else Done(status))
      ensures tried <==> answer(start) == Passes && key !in old(store.idempotency)
      ensures tried ==> used == start + 1 && key in store.idempotency
      ensures !tried ==> status == REJECTED || status == CRASHED
      ensures !tried && (answer(start) == Passes || answer(start) == Refuses)
              ==> status == REJECTED && store.idempotency == old(store.idempotency)
      ensures answer(start) != Passes && answer(start) != Refuses
              ==> status == (if answer(start + 1) == Passes then REJECTED else CRASHED)
                  && (answer(start + 1) == Passes ==> key !in store.idempotency)
      ensures store.idempotency - {key} == old(store.idempotency) - {key}
    {
      var phase;
      phase, t' := Claim(key, answer, start, t);
      tried, used, status := phase == Claimed, start + 1, REJECTED;
      if phase == Releasing {
        status, t' := GiveUp(key, answer, used, t');
        used := used + 1;
      }
    }

    /** From the claim on. */
    method Trade(key: Key, answer: nat -> Answer, start: nat, ghost t: Track)
      returns (status: Status, tried: bool, used: nat, ghost t': Track)
      requires Reaches(t, t, answer, start) && t.key == key && t.phase == Claiming
      modifies this, store`idempotency
      ensures Reaches(t, t', answer, used) && t'.phase == Done(status)
      ensures sent == (if tried then old(sent) + [key] else old(sent))
      ensures portfolio == (if status == FILLED then old(portfolio) + [key] else old(portfolio))
      ensures tried <==> answer(start) == Passes && key !in old(store.idempotency)
      ensures status == FILLED <==> tried && SentOutcome(answer, start, Passes)
      ensures status == FAILED <==> tried && SentOutcome(answer, start, Reverts)
      ensures tried ==> OpenOutcome(answer, start, status)
      ensures tried ==> (status == FAILED <==> key !in store.idempotency)
      ensures !tried && (answer(start) == Passes || answer(start) == Refuses)
              ==> status == REJECTED && store.idempotency == old(store.idempotency)
      ensures answer(start) != Passes && answer(start) != Refuses
              ==> status == (if answer(start + 1) == Passes then REJECTED else CRASHED)
                  && (answer(start + 1) == Passes ==> key !in store.idempotency)
      ensures store.idempotency - {key} == old(store.idempotency) - {key}
    {
      status, tried, used, t' := Secure(key, answer, start, t);
      if tried { status, used, t' := Send(key, answer, used, t'); }
    }

    /** _execute, undisturbed: the model's run on these answers, to its end.  So the answers decide what happens.  A key that
        was claimed before is never handed to the wallet; one that was handed over stays claimed unless the swap reverted;
        the portfolio changes exactly by a FILLED swap; no other key is touched. */
    method Execute(e: nat, key: Key, answer: nat -> Answer, ghost s: State)
      returns (status: Status, tried: bool, used: nat, ghost t: Track)
      requires e !in s.executions && Holds(s)
      modifies this, store`idempotency
      ensures Synced(t) && t.s == s && t.e == e && t.key == key
      ensures t.events == Asked(answer, used) && t.phase == Done(status)
      ensures sent == (if tried then old(sent) + [key] else old(sent))
      ensures portfolio == (if status == FILLED then old(portfolio) + [key] else old(portfolio))
      ensures tried <==> key !in old(store.idempotency) && Ready(answer, Stop(answer)) && answer(Stop(answer)) == Passes
      ensures var c := Stop(answer);
              (status == FILLED <==> tried && SentOutcome(answer, c, Passes))
              && (status == FAILED <==> tried && SentOutcome(answer, c, Reverts))
              && (tried ==> OpenOutcome(answer, c, status))
      ensures tried ==> (status == FAILED <==> key !in store.idempotency)
      ensures var c := Stop(answer);
              !tried && !Unforeseen(answer, c) ==> status == REJECTED && store.idempotency == old(store.idempotency)
      ensures var c := Stop(answer);
              Unforeseen(answer, c) ==> status == (if answer(c + 1) == Passes then REJECTED else CRASHED)
                                        && (answer(c + 1) == Passes ==> key !in store.idempotency)
      ensures store.idempotency - {key} == old(store.idempotency) - {key}
    {
      StartTracks(s, e, key);
      var result;
      result, used, t := Prepare(answer, Track(s, e, key, [], s, Preflight));
      tried := false;
      if result == Passes {
        status, tried, used, t := Trade(key, answer, used, t);
      } else if result == Breaks {
        status, t := GiveUp(key, answer, used, t);
        used := used + 1;
      } else {
        status := REJECTED;
      }
    }
  }

  lemma AskedTwo(answer: nat -> Answer, n: nat)
    ensures Asked(answer, n + 2) == Asked(answer, n) + [answer(n)] + [answer(n + 1)]
  {
  }

  lemma StartTracks(s: State, e: nat, key: Key)
    requires e !in s.executions
    ensures Tracks(Track(s, e, key, [], s, Preflight))
  {
    assert Script(e, key, []) == [Start(e, key)];
    ExecOne(s, Start(e, key));
  }
}
