/** Remote commands on the runner: enqueue_commands, drain_commands, heartbeat_once and handle_command
(backend/runner/runtime.py) over the durable table of executed commands (backend/runner/store.py).

The control plane sends a command again until it is acknowledged, acknowledgements may get lost, heartbeats deliver
commands while another one is being handled, and the process may die at any moment, which loses its queue but not its
table.  Handlers run one at a time. */
module Commands {
  import opened Outbox

  datatype Command = Command(id: string, work: string)

  datatype Status = DONE | FAILED

  datatype Reply = Reply(id: string, status: Status)

  /** What the handler is in the middle of: running a command that it has not marked yet, or about to acknowledge one. */
  datatype Phase = Idle | Running(cmd: Command) | Replying(reply: Reply)

  /** seen is the durable table.  runs counts every start of a command, interrupted every death of the process between
      the start of a command and its mark, acks lists the acknowledgements sent (whether or not they arrive). */
  datatype State = State(seen: set<string>, queue: seq<Command>, inflight: set<string>, phase: Phase,
                         runs: multiset<string>, interrupted: multiset<string>, acks: seq<Reply>)

  datatype Step =
    | Beat(cmds: seq<Command>)            // a heartbeat in the middle of a cycle delivers commands
    | TakeQueued                          // drain_commands takes the oldest one
    | TakeDelivered(cmd: Command)         // heartbeat_once handles one from its own response
    | Finish(status: Status)              // the command ends, well or not, and is marked
    | SendReply
    | Restart                             // the process dies and a new one starts on the same table

  const START := State({}, [], {}, Idle, multiset{}, multiset{}, [])

  function Ids(cmds: seq<Command>): set<string> {
    set c | c in cmds :: c.id
  }

  /** enqueue_commands: commands already queued, being handled or executed are ignored. */
  function Enqueue(s: State, cmds: seq<Command>): State
    decreases cmds
  {
    if cmds == [] then s
    else if cmds[0].id in Ids(s.queue) || cmds[0].id in s.inflight || cmds[0].id in s.seen then Enqueue(s, cmds[1..])
    else Enqueue(s.(queue := s.queue + [cmds[0]]), cmds[1..])
  }

  function Take(s: State, cmd: Command): State {
    if cmd.id in s.seen then s.(phase := Replying(Reply(cmd.id, DONE)))
    else s.(phase := Running(cmd), runs := s.runs + multiset{cmd.id})
  }

  function InHand(phase: Phase): multiset<string> {
    if phase.Running? then multiset{phase.cmd.id} else multiset{}
  }

  function Apply(s: State, step: Step): State {
    match step
    case Beat(cmds) => Enqueue(s, cmds)
    case TakeQueued =>
      if s.phase == Idle && s.queue != [] then
        Take(s.(queue := s.queue[1..], inflight := s.inflight + {s.queue[0].id}), s.queue[0])
      else s
    case TakeDelivered(cmd) => if s.phase == Idle then Take(s, cmd) else s
    case Finish(status) =>
      if s.phase.Running? then
        s.(seen := s.seen + {s.phase.cmd.id}, phase := Replying(Reply(s.phase.cmd.id, status)))
      else s
    case SendReply =>
      if s.phase.Replying? then
        s.(acks := s.acks + [s.phase.reply], phase := Idle, inflight := s.inflight - {s.phase.reply.id})
      else s
    case Restart =>
      State(s.seen, [], {}, Idle, s.runs, s.interrupted + InHand(s.phase), s.acks)
  }

  function Exec(s: State, steps: seq<Step>): State {
    if steps == [] then s else Apply(Exec(s, steps[..|steps| - 1]), steps[|steps| - 1])
  }

  // ---------------------------------------------------------------- how often a command runs

  /** Every run is accounted for: one for each marked command, one for each interruption, and the one under way. */
  ghost predicate Accounted(s: State) {
    && s.runs == multiset(s.seen) + s.interrupted + InHand(s.phase)
    && (s.phase.Running? ==> s.phase.cmd.id !in s.seen)
    && (s.phase.Replying? ==> s.phase.reply.id in s.seen)
    && (forall a :: a in s.acks ==> a.id in s.seen)
  }

  /** The queue holds no command twice. */
  ghost predicate Distinct(queue: seq<Command>) {
    forall i, j :: 0 <= i < j < |queue| ==> queue[i].id != queue[j].id
  }

  ghost predicate Inv(s: State) { Accounted(s) && Distinct(s.queue) }

  lemma {:induction false} EnqueueOnlyQueues(s: State, cmds: seq<Command>)
    ensures var s' := Enqueue(s, cmds);
            s' == s.(queue := s'.queue) && |s'.queue| >= |s.queue| && s'.queue[..|s.queue|] == s.queue
    ensures Distinct(s.queue) ==> Distinct(Enqueue(s, cmds).queue)
    decreases cmds
  {
    if cmds != [] {
      var known := cmds[0].id in Ids(s.queue) || cmds[0].id in s.inflight || cmds[0].id in s.seen;
      var s1 := if known then s else s.(queue := s.queue + [cmds[0]]);
      assert !known ==> s1.queue[..|s.queue|] == s.queue;
      assert forall i :: 0 <= i < |s.queue| ==> s.queue[i].id in Ids(s.queue);
      EnqueueOnlyQueues(s1, cmds[1..]);
      var s' := Enqueue(s1, cmds[1..]);
      assert s'.queue[..|s1.queue|][..|s.queue|] == s'.queue[..|s.queue|];
    }
  }

  /** After a heartbeat every command it delivered is queued, being handled or already executed, and the queue has gained
      nothing else. */
  lemma {:induction false} DeliveredIsHeld(s: State, cmds: seq<Command>)
    ensures var s' := Enqueue(s, cmds);
            Ids(s'.queue) + s.inflight + s.seen == Ids(s.queue) + Ids(cmds) + s.inflight + s.seen
    decreases cmds
  {
    if cmds != [] {
      var c := cmds[0];
      var known := c.id in Ids(s.queue) || c.id in s.inflight || c.id in s.seen;
      var s1 := if known then s else s.(queue := s.queue + [c]);
      IdsJoin(s.queue, [c]);
      IdsJoin([c], cmds[1..]);
      assert [c] + cmds[1..] == cmds;
      assert Ids([c]) == {c.id} by { assert c in [c]; }
      DeliveredIsHeld(s1, cmds[1..]);
    }
  }

  /** New commands line up behind the others in the order they come. */
  lemma {:induction false} NewCommandsQueueInOrder(s: State, cmds: seq<Command>)
    requires Distinct(cmds) && forall c :: c in cmds ==> c.id !in Ids(s.queue) + s.inflight + s.seen
    ensures Enqueue(s, cmds).queue == s.queue + cmds
    decreases cmds
  {
    if cmds != [] {
      var s1 := s.(queue := s.queue + [cmds[0]]);
      assert cmds[0] in cmds && forall c :: c in cmds[1..] ==> c in cmds;
      forall c | c in cmds[1..] ensures c.id !in Ids(s1.queue) {
        var i :| 0 <= i < |cmds| - 1 && cmds[1..][i] == c;
        assert cmds[0].id != cmds[i + 1].id;
      }
      NewCommandsQueueInOrder(s1, cmds[1..]);
      assert s.queue + [cmds[0]] + cmds[1..] == s.queue + cmds;
    }
  }

  lemma IdsJoin(a: seq<Command>, b: seq<Command>)
    ensures Ids(a + b) == Ids(a) + Ids(b)
  {
    forall id ensures id in Ids(a + b) <==> id in Ids(a) + Ids(b) {
      if id in Ids(a) { var c :| c in a && c.id == id; assert c in a + b; }
      if id in Ids(b) { var c :| c in b && c.id == id; assert c in a + b; }
    }
  }

  lemma TakeKeepsAccounts(s: State, cmd: Command)
    requires Accounted(s) && s.phase == Idle
    ensures Accounted(Take(s, cmd))
  {
  }

  lemma FinishKeepsAccounts(s: State, status: Status)
    requires Accounted(s) && s.phase.Running?
    ensures Accounted(Apply(s, Finish(status)))
  {
    assert multiset(s.seen + {s.phase.cmd.id}) == multiset(s.seen) + multiset{s.phase.cmd.id};
  }

  lemma StepKeepsAccounts(s: State, step: Step)
    requires Accounted(s)
    ensures Accounted(Apply(s, step))
  {
    match step
    case Beat(cmds) => EnqueueOnlyQueues(s, cmds);
    case TakeQueued =>
      if s.phase == Idle && s.queue != [] {
        TakeKeepsAccounts(s.(queue := s.queue[1..], inflight := s.inflight + {s.queue[0].id}), s.queue[0]);
      }
    case TakeDelivered(cmd) => if s.phase == Idle { TakeKeepsAccounts(s, cmd); }
    case Finish(status) => if s.phase.Running? { FinishKeepsAccounts(s, status); }
    case SendReply =>
    case Restart =>
  }

  lemma StepKeepsInv(s: State, step: Step)
    requires Inv(s)
    ensures Inv(Apply(s, step))
  {
    StepKeepsAccounts(s, step);
    if step.Beat? { EnqueueOnlyQueues(s, step.cmds); }
  }

  lemma {:induction false} ExecKeepsInv(s: State, steps: seq<Step>)
    requires Inv(s)
    ensures Inv(Exec(s, steps))
  {
    if steps != [] {
      ExecKeepsInv(s, steps[..|steps| - 1]);
      StepKeepsInv(Exec(s, steps[..|steps| - 1]), steps[|steps| - 1]);
    }
  }

  /** However often a command is delivered, it is started once for its mark and once more for each death of the process
      between its start and its mark: exactly, once it is marked, and never more. */
  lemma RunsOncePlusInterruptions(steps: seq<Step>, id: string)
    ensures var s := Exec(START, steps);
            s.interrupted[id] <= s.runs[id] <= 1 + s.interrupted[id]
            && (id in s.seen ==> s.runs[id] == 1 + s.interrupted[id])
  {
    ExecKeepsInv(START, steps);
  }

  /** No acknowledgement is ever sent for a command that did not run to its mark, whatever was lost or redelivered. */
  lemma AcknowledgedCommandsRan(steps: seq<Step>, a: Reply)
    requires a in Exec(START, steps).acks
    ensures var s := Exec(START, steps); a.id in s.seen && s.runs[a.id] >= 1
  {
    ExecKeepsInv(START, steps);
  }

  /** A mark is for ever: once marked, a command is never started again. */
  lemma {:induction false} MarkedNeverRunsAgain(s: State, steps: seq<Step>, id: string)
    requires id in s.seen
    ensures var s' := Exec(s, steps); id in s'.seen && (Inv(s) ==> s'.runs[id] == s.runs[id])
  {
    if steps != [] {
      var before, step := steps[..|steps| - 1], steps[|steps| - 1];
      MarkedNeverRunsAgain(s, before, id);
      if step.Beat? { EnqueueOnlyQueues(Exec(s, before), step.cmds); }
    }
  }

  /** What an acknowledgement does not tell: a command that failed is acknowledged DONE when it is delivered again, because
      the table remembers that it ran and not how it ended. */
  lemma RedeliveryReportsDone(cmd: Command)
    ensures Exec(START, [TakeDelivered(cmd), Finish(FAILED), SendReply, TakeDelivered(cmd), SendReply]).acks
         == [Reply(cmd.id, FAILED), Reply(cmd.id, DONE)]
  {
    var steps := [TakeDelivered(cmd), Finish(FAILED), SendReply, TakeDelivered(cmd), SendReply];
    var s0: State := START;
    assert Exec(s0, steps[..0]) == s0;
    var s1 := Apply(s0, steps[0]);
    assert steps[..1][..0] == steps[..0] && Exec(s0, steps[..1]) == s1;
    var s2 := Apply(s1, steps[1]);
    assert steps[..2][..1] == steps[..1] && Exec(s0, steps[..2]) == s2;
    var s3 := Apply(s2, steps[2]);
    assert steps[..3][..2] == steps[..2] && Exec(s0, steps[..3]) == s3;
    var s4 := Apply(s3, steps[3]);
    assert steps[..4][..3] == steps[..3] && Exec(s0, steps[..4]) == s4;
    assert s4.phase == Replying(Reply(cmd.id, DONE)) && s4.acks == [Reply(cmd.id, FAILED)];
  }

  // ---------------------------------------------------------------- the program

  /** handle_command as one transition of a handler that is idle before and after it. */
  function Handled(s: State, cmd: Command, status: Status): State {
    if cmd.id in s.seen then s.(acks := s.acks + [Reply(cmd.id, DONE)])
    else s.(seen := s.seen + {cmd.id}, runs := s.runs + multiset{cmd.id}, acks := s.acks + [Reply(cmd.id, status)])
  }

  /** Taking the oldest command, hearing from the control plane meanwhile, and handling it, as steps. */
  function DrainSteps(cmds: seq<Command>, status: Status): seq<Step> {
    [TakeQueued, Beat(cmds), Finish(status), SendReply]
  }

  lemma ExecFour(s: State, a: Step, b: Step, c: Step, d: Step)
    ensures Exec(s, [a, b, c, d]) == Apply(Apply(Apply(Apply(s, a), b), c), d)
  {
    assert [a, b, c, d][..3] == [a, b, c] && [a, b, c][..2] == [a, b] && [a, b][..1] == [a] && [a][..0] == [];
    assert Exec(s, [a]) == Apply(s, a);
    assert Exec(s, [a, b]) == Apply(Exec(s, [a]), b);
    assert Exec(s, [a, b, c]) == Apply(Exec(s, [a, b]), c);
  }

  lemma DrainStepsHandle(s: State, cmds: seq<Command>, status: Status)
    requires s.phase == Idle && s.queue != [] && s.inflight == {}
    ensures var c := s.queue[0];
            var s1 := Enqueue(s.(queue := s.queue[1..], inflight := {c.id}), cmds);
            Exec(s, DrainSteps(cmds, status)) == Handled(s1, c, status).(inflight := {})
  {
    var c := s.queue[0];
    var s0 := s.(queue := s.queue[1..], inflight := {c.id});
    assert s.inflight + {c.id} == {c.id};
    EnqueueIgnoresPhase(s0, Take(s0, c).phase, Take(s0, c).runs, cmds);
    EnqueueOnlyQueues(s0, cmds);
    ExecFour(s, TakeQueued, Beat(cmds), Finish(status), SendReply);
  }

  lemma {:induction false} EnqueueIgnoresPhase(s: State, phase: Phase, runs: multiset<string>, cmds: seq<Command>)
    ensures Enqueue(s.(phase := phase, runs := runs), cmds) == Enqueue(s, cmds).(phase := phase, runs := runs)
    decreases cmds
  {
    if cmds != [] {
      var known := cmds[0].id in Ids(s.queue) || cmds[0].id in s.inflight || cmds[0].id in s.seen;
      EnqueueIgnoresPhase(if known then s else s.(queue := s.queue + [cmds[0]]), phase, runs, cmds[1..]);
    }
  }

  lemma {:induction false} ExecJoin(s: State, a: seq<Step>, b: seq<Step>)
    ensures Exec(s, a + b) == Exec(Exec(s, a), b)
  {
    if b == [] {
      assert a + b == a;
    } else {
      assert (a + b)[..|a + b| - 1] == a + b[..|b| - 1];
      ExecJoin(s, a, b[..|b| - 1]);
    }
  }

  function Meanwhile(arrivals: seq<seq<Command>>, k: nat): seq<Command> { if k < |arrivals| then arrivals[k] else [] }

  /** n turns of the loop in drain_commands, which ends when the queue is empty. */
  function Turns(s: State, work: Command -> Status, arrivals: seq<seq<Command>>, n: nat): State {
    if n == 0 then s
    else
      var before := Turns(s, work, arrivals, n - 1);
      if before.queue == [] then before
      else Exec(before, DrainSteps(Meanwhile(arrivals, n - 1), work(before.queue[0])))
  }

  function AllIds(batches: seq<seq<Command>>): set<string> {
    if batches == [] then {} else AllIds(batches[..|batches| - 1]) + Ids(batches[|batches| - 1])
  }

  class CommandLoop {
    const store: LocalStore
    var queue: seq<Command>
    var inflight: set<string>
    var acks: seq<Reply>
    ghost const earlierAcks: seq<Reply>
    ghost var runs: multiset<string>
    ghost var interrupted: multiset<string>

    ghost function Now(): State
      reads this, store
    {
      State(store.commands, queue, inflight, Idle, runs, interrupted, earlierAcks + acks)
    }

    /** A new process on a store that earlier ones may have used. */
    constructor (store: LocalStore, ghost past: State)
      requires Accounted(past) && past.seen == store.commands
      ensures this.store == store && Now() == Apply(past, Restart) && Inv(Now())
    {
      this.store := store;
      queue, inflight, acks := [], {}, [];
      earlierAcks := past.acks;
      runs, interrupted := past.runs, past.interrupted + InHand(past.phase);
    }

    method EnqueueCommands(cmds: seq<Command>) returns (n: nat)
      modifies this`queue
      ensures Now() == Enqueue(old(Now()), cmds) && n == |queue| - |old(queue)|
    {
      n := 0;
      var i := 0;
      while i < |cmds|
        invariant 0 <= i <= |cmds| && n == |queue| - |old(queue)|
        invariant Enqueue(Now(), cmds[i..]) == Enqueue(old(Now()), cmds)
      {
        assert cmds[i..][1..] == cmds[i + 1..];
        var seen := store.CommandSeen(cmds[i].id);
        if !(cmds[i].id in Ids(queue) || cmds[i].id in inflight || seen) {
          queue := queue + [cmds[i]];
          n := n + 1;
        }
        i := i + 1;
      }
    }

    /** status is how the command ends if it is run now; an exception counts as FAILED. */
    method HandleCommand(cmd: Command, status: Status)
      modifies this`acks, this`runs, store`commands
      ensures Now() == Handled(old(Now()), cmd, status)
      ensures acks == old(acks) + [Reply(cmd.id, if cmd.id in old(store.commands) then DONE else status)]
      ensures runs == if cmd.id in old(store.commands) then old(runs) else old(runs) + multiset{cmd.id}
      ensures store.commands == old(store.commands) + {cmd.id}
    {
      var seen := store.CommandSeen(cmd.id);
      var outcome := DONE;
      if !seen {
        runs := runs + multiset{cmd.id};
        outcome := status;
        store.MarkCommand(cmd.id);
      }
      acks := acks + [Reply(cmd.id, outcome)];
    }

    /** One turn of the loop in drain_commands: meanwhile is what a heartbeat delivers during it. */
    method HandleNext(meanwhile: seq<Command>, status: Status)
      requires inflight == {} && queue != []
      modifies this, store`commands
      ensures Now() == Exec(old(Now()), DrainSteps(meanwhile, status)) && inflight == {}
    {
      DrainStepsHandle(Now(), meanwhile, status);
      var cmd := queue[0];
      queue, inflight := queue[1..], {cmd.id};
      var _ := EnqueueCommands(meanwhile);
      HandleCommand(cmd, status);
      inflight := {};
    }

    /** arrivals[i] is what a heartbeat delivers while the i-th command is being handled, work how a command ends if it
        runs.  The loop takes its turns until the queue is empty.  Then exactly the commands that were queued or arrived are
        marked besides those already known, and each of the newly marked ones has run exactly once. */
    method DrainCommands(work: Command -> Status, arrivals: seq<seq<Command>>) returns (n: nat)
      requires Inv(Now()) && inflight == {}
      modifies this, store`commands
      ensures Inv(Now()) && inflight == {} && queue == []
      ensures Now() == Turns(old(Now()), work, arrivals, n)
      ensures store.commands == old(store.commands) + old(Ids(queue)) + AllIds(Heard(arrivals, n))
      ensures runs == old(runs) + multiset(store.commands - old(store.commands))
    {
      n := 0;
      ghost var start, now := Now(), Now();
      while queue != []
        invariant now == Now() && inflight == {} && Drained(start, now, work, arrivals, n)
        decreases |arrivals| - |Heard(arrivals, n)|, |queue|
      {
        var meanwhile := Meanwhile(arrivals, n);
        var status := work(queue[0]);
        HandleNext(meanwhile, status);
        NextTurn(start, now, work, arrivals, n);
        now := Now();
        n := n + 1;
      }
      DrainedRuns(start, now, work, arrivals, n);
    }
  }

  /** The heartbeats heard while n commands were handled. */
  function Heard(arrivals: seq<seq<Command>>, n: nat): seq<seq<Command>> {
    if n <= |arrivals| then arrivals[..n] else arrivals
  }

  lemma HeardMore(arrivals: seq<seq<Command>>, n: nat)
    ensures AllIds(Heard(arrivals, n + 1))
         == AllIds(Heard(arrivals, n)) + Ids(Meanwhile(arrivals, n))
    ensures |Heard(arrivals, n + 1)| == |Heard(arrivals, n)| + if n < |arrivals| then 1 else 0
  {
    if n < |arrivals| {
      assert arrivals[..n + 1][..n] == arrivals[..n] && arrivals[..n + 1][n] == arrivals[n];
    } else {
      assert arrivals[..|arrivals|] == arrivals;
    }
  }

  /** Between two turns of the loop: what was queued at the start or heard since is queued or marked, no process died. */
  ghost predicate Drained(start: State, now: State, work: Command -> Status, arrivals: seq<seq<Command>>, n: nat) {
    && now == Turns(start, work, arrivals, n) && Inv(start) && Inv(now)
    && start.phase == now.phase == Idle && now.interrupted == start.interrupted
    && start.seen <= now.seen && now.seen + Ids(now.queue) == start.seen + Ids(start.queue) + AllIds(Heard(arrivals, n))
  }

  lemma RoundIds(s: State, cmds: seq<Command>)
    requires s.queue != []
    ensures var c := s.queue[0];
            var q := Enqueue(s.(queue := s.queue[1..], inflight := {c.id}), cmds).queue;
            s.seen + {c.id} + Ids(q) == s.seen + Ids(s.queue) + Ids(cmds) && (cmds == [] ==> |q| < |s.queue|)
  {
    var c := s.queue[0];
    DeliveredIsHeld(s.(queue := s.queue[1..], inflight := {c.id}), cmds);
    IdsJoin([c], s.queue[1..]);
    assert [c] + s.queue[1..] == s.queue;
    assert Ids([c]) == {c.id} by { assert c in [c]; }
  }

  lemma OneTurn(s: State, cmds: seq<Command>, status: Status)
    requires Inv(s) && s.phase == Idle && s.queue != [] && s.inflight == {}
    ensures var s' := Exec(s, DrainSteps(cmds, status));
            && Inv(s') && s'.phase == Idle && s'.interrupted == s.interrupted && s.seen <= s'.seen
            && s'.seen + Ids(s'.queue) == s.seen + Ids(s.queue) + Ids(cmds) && (cmds == [] ==> |s'.queue| < |s.queue|)
  {
    var c := s.queue[0];
    var s0 := s.(queue := s.queue[1..], inflight := {c.id});
    DrainStepsHandle(s, cmds, status);
    ExecKeepsInv(s, DrainSteps(cmds, status));
    EnqueueOnlyQueues(s0, cmds);
    RoundIds(s, cmds);
    var s' := Exec(s, DrainSteps(cmds, status));
    assert s'.seen == s.seen + {c.id} && s'.queue == Enqueue(s0, cmds).queue;
  }

  lemma NextTurn(start: State, s: State, work: Command -> Status, arrivals: seq<seq<Command>>, n: nat)
    requires Drained(start, s, work, arrivals, n) && s.queue != [] && s.inflight == {}
    ensures var s' := Exec(s, DrainSteps(Meanwhile(arrivals, n), work(s.queue[0])));
            Drained(start, s', work, arrivals, n + 1)
            && (|Heard(arrivals, n + 1)| == |Heard(arrivals, n)| ==> |s'.queue| < |s.queue|)
  {
    var cmds := Meanwhile(arrivals, n);
    OneTurn(s, cmds, work(s.queue[0]));
    HeardMore(arrivals, n);
    var s' := Exec(s, DrainSteps(cmds, work(s.queue[0])));
    Regroup(start.seen + Ids(start.queue), AllIds(Heard(arrivals, n)), Ids(cmds),
            s.seen + Ids(s.queue), s'.seen + Ids(s'.queue));
  }

  lemma Regroup(first: set<string>, heard: set<string>, more: set<string>, now: set<string>, later: set<string>)
    requires now == first + heard && later == now + more
    ensures later == first + (heard + more)
  {
  }

  lemma DrainedRuns(start: State, now: State, work: Command -> Status, arrivals: seq<seq<Command>>, n: nat)
    requires Drained(start, now, work, arrivals, n) && now.queue == []
    ensures now.seen == start.seen + Ids(start.queue) + AllIds(Heard(arrivals, n))
    ensures now.runs == start.runs + multiset(now.seen - start.seen)
  {
    assert now.seen == start.seen + (now.seen - start.seen);
    assert multiset(now.seen) == multiset(start.seen) + multiset(now.seen - start.seen);
  }

  /** The turns of the loop are a run of the model. */
  lemma {:induction false} TurnsAreARun(s: State, work: Command -> Status, arrivals: seq<seq<Command>>, n: nat)
    returns (steps: seq<Step>)
    ensures Turns(s, work, arrivals, n) == Exec(s, steps)
    decreases n
  {
    if n == 0 {
      steps := [];
    } else {
      steps := TurnsAreARun(s, work, arrivals, n - 1);
      var before := Turns(s, work, arrivals, n - 1);
      if before.queue != [] {
        var more := DrainSteps(Meanwhile(arrivals, n - 1), work(before.queue[0]));
        ExecJoin(s, steps, more);
        steps := steps + more;
      }
    }
  }
}
