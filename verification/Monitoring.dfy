/** The life of a token under global monitoring (GlobalMonitoringService in backend/app/discovery/monitoring.py), as far as
monitoring alone decides it.

What discovery does to tokens between the cycles, and what the providers answer, is not part of this model: the answers are
parameters.  Times are in seconds. */
module Monitoring {
  import opened BestFirst
  import opened Common

  datatype Status = DISCOVERED | SCREENING | WATCHING | IMPROVING | QUALIFIED | SIGNAL | EXECUTING | REJECTED | DROPPED
                  | LOST_MOMENTUM | EXPIRED

  datatype Priority = HOT | WARM | COLD | DEAD | OTHER

  /** The settings; their bounds are those the code declares. */
  datatype Config = Config(hot: real, warm: real, cold: real, improve: real, decline: real, maxPerCycle: nat,
                           maxFailures: nat)

  predicate ValidConfig(cfg: Config) { 1 <= cfg.maxPerCycle <= 200 && 1 <= cfg.maxFailures <= 50 }

  datatype Token = Token(key: Address, status: Status, priority: Priority, last: Option<real>, failures: nat,
                         initial: Option<real>, current: Option<real>)

  /** What the providers say about a token: a snapshot and its score, a snapshot alone (no scorer is set up), a snapshot whose
      scoring fails, or an error. */
  datatype Result = Rates(score: real) | Unrated | ScoreFails | Unavailable | Broken

  // ---------------------------------------------------------------- which tokens are due

  function Interval(cfg: Config, p: Priority): real {
    match p
    case HOT => cfg.hot
    case COLD => cfg.cold
    case _ => cfg.warm
  }

  function Rank(p: Priority): int {
    match p
    case HOT => 0
    case WARM => 1
    case COLD => 2
    case DEAD => 9
    case OTHER => 5
  }

  predicate Monitored(status: Status) {
    status.WATCHING? || status.IMPROVING? || status.QUALIFIED? || status.SCREENING? || status.DISCOVERED?
  }

  predicate IsDue(t: Token, now: real, cfg: Config) {
    Monitored(t.status) && t.priority != DEAD && !(t.last.Some? && now - t.last.value < Interval(cfg, t.priority))
  }

  function Entry(t: Token): Scored { Scored(-Rank(t.priority) as real, t.key) }

  function Entries(tokens: seq<Token>, now: real, cfg: Config): seq<Scored> {
    if tokens == [] then []
    else if IsDue(tokens[0], now, cfg) then [Entry(tokens[0])] + Entries(tokens[1..], now, cfg)
    else Entries(tokens[1..], now, cfg)
  }

  /** The queue of a cycle: best priority first, then by key, cut at the cap. */
  function Due(tokens: seq<Token>, now: real, cfg: Config): seq<Scored> {
    Take(Best(Entries(tokens, now, cfg)), cfg.maxPerCycle)
  }

  // ---------------------------------------------------------------- one fetch

  function OrElse(x: Option<real>, y: Option<real>): Option<real> { if x.Some? && x.value != 0.0 then x else y }

  function Failed(t: Token, now: real, cfg: Config): Token {
    var t' := t.(failures := t.failures + 1, last := Some(now));
    if t'.failures >= cfg.maxFailures then t'.(priority := DEAD, status := REJECTED) else t'
  }

  function Rescored(t: Token, now: real, score: real, cfg: Config): Token {
    var previous := OrElse(t.current, t.initial);
    var t1 := t.(failures := 0, last := Some(now), initial := if t.initial.None? then Some(score) else t.initial,
                 current := Some(score));
    var t2 := if previous.Some? && score - previous.value >= cfg.improve then t1.(status := IMPROVING, priority := HOT)
              else if previous.Some? && score - previous.value <= cfg.decline then t1.(status := LOST_MOMENTUM, priority := COLD)
              else t1;
    if t2.status == DISCOVERED then t2.(status := WATCHING) else t2
  }

  function Fetched(t: Token, now: real, result: Result, cfg: Config): Token {
    match result
    case Rates(score) => Rescored(t, now, score, cfg)
    case Unrated => t.(failures := 0, last := Some(now))
    case ScoreFails => Failed(t.(failures := 0), now, cfg)
    case Unavailable => Failed(t, now, cfg)
    case Broken => Failed(t, now, cfg)
  }

  // ---------------------------------------------------------------- cycles

  datatype Cycle = Cycle(now: real, results: Address -> Result)

  /** The tokens with the given keys are fetched. */
  function Pass(tokens: seq<Token>, keys: set<Address>, c: Cycle, cfg: Config): (r: seq<Token>)
    ensures |r| == |tokens|
  {
    if tokens == [] then []
    else [One(tokens[0], keys, c, cfg)] + Pass(tokens[1..], keys, c, cfg)
  }

  function One(t: Token, keys: set<Address>, c: Cycle, cfg: Config): Token {
    if t.key in keys then Fetched(t, c.now, c.results(t.key), cfg) else t
  }

  lemma {:induction false} PassAt(tokens: seq<Token>, keys: set<Address>, c: Cycle, cfg: Config, i: nat)
    requires i < |tokens|
    ensures Pass(tokens, keys, c, cfg)[i] == One(tokens[i], keys, c, cfg)
  {
    if i > 0 { PassAt(tokens[1..], keys, c, cfg, i - 1); }
  }

  function AfterCycle(tokens: seq<Token>, c: Cycle, cfg: Config): seq<Token> {
    Pass(tokens, AddrSet(Due(tokens, c.now, cfg)), c, cfg)
  }

  function After(tokens: seq<Token>, cycles: seq<Cycle>, cfg: Config): (r: seq<Token>)
    ensures |r| == |tokens|
  {
    if cycles == [] then tokens else AfterCycle(After(tokens, cycles[..|cycles| - 1], cfg), cycles[|cycles| - 1], cfg)
  }

  /** Token i is fetched in the cycle that comes after the given ones. */
  predicate FetchedNext(tokens: seq<Token>, cycles: seq<Cycle>, c: Cycle, cfg: Config, i: nat)
    requires i < |tokens|
  {
    After(tokens, cycles, cfg)[i].key in AddrSet(Due(After(tokens, cycles, cfg), c.now, cfg))
  }

  function Fetches(tokens: seq<Token>, cycles: seq<Cycle>, cfg: Config, i: nat): nat
    requires i < |tokens|
  {
    if cycles == [] then 0
    else
      var front := cycles[..|cycles| - 1];
      Fetches(tokens, front, cfg, i) + if FetchedNext(tokens, front, cycles[|cycles| - 1], cfg, i) then 1 else 0
  }

  predicate Distinct(tokens: seq<Token>) {
    forall i, j :: 0 <= i < j < |tokens| ==> tokens[i].key != tokens[j].key
  }

  lemma {:induction false} EntriesAreDue(tokens: seq<Token>, now: real, cfg: Config, e: Scored)
    requires e in Entries(tokens, now, cfg)
    ensures exists t :: t in tokens && IsDue(t, now, cfg) && e == Entry(t)
  {
    if !(IsDue(tokens[0], now, cfg) && e == Entry(tokens[0])) {
      EntriesAreDue(tokens[1..], now, cfg, e);
    }
  }

  /** Only due tokens are fetched. */
  lemma FetchedIsDue(tokens: seq<Token>, now: real, cfg: Config, i: nat)
    requires Distinct(tokens) && i < |tokens| && tokens[i].key in AddrSet(Due(tokens, now, cfg))
    ensures IsDue(tokens[i], now, cfg)
  {
    var entries := Entries(tokens, now, cfg);
    AddrSetMembers(Due(tokens, now, cfg), tokens[i].key);
    var e :| e in Due(tokens, now, cfg) && e.addr == tokens[i].key;
    BestIsOrdered(entries);
    assert e in multiset(Best(entries));
    EntriesAreDue(tokens, now, cfg, e);
    var t :| t in tokens && IsDue(t, now, cfg) && e == Entry(t);
    var j :| 0 <= j < |tokens| && tokens[j] == t;
  }

  lemma {:induction false} KeyStays(tokens: seq<Token>, cycles: seq<Cycle>, cfg: Config, i: nat)
    requires i < |tokens|
    ensures After(tokens, cycles, cfg)[i].key == tokens[i].key
  {
    if cycles != [] {
      var front, c := cycles[..|cycles| - 1], cycles[|cycles| - 1];
      KeyStays(tokens, front, cfg, i);
      var before := After(tokens, front, cfg);
      PassAt(before, AddrSet(Due(before, c.now, cfg)), c, cfg, i);
    }
  }

  lemma DistinctStays(tokens: seq<Token>, cycles: seq<Cycle>, cfg: Config)
    requires Distinct(tokens)
    ensures Distinct(After(tokens, cycles, cfg))
  {
    forall i, j | 0 <= i < j < |tokens| ensures After(tokens, cycles, cfg)[i].key != After(tokens, cycles, cfg)[j].key {
      KeyStays(tokens, cycles, cfg, i);
      KeyStays(tokens, cycles, cfg, j);
    }
  }

  /** What one more cycle does to one token. */
  lemma OneMore(tokens: seq<Token>, cycles: seq<Cycle>, cfg: Config, i: nat)
    requires Distinct(tokens) && i < |tokens| && cycles != []
    ensures var front, c := cycles[..|cycles| - 1], cycles[|cycles| - 1];
            var before, after := After(tokens, front, cfg)[i], After(tokens, cycles, cfg)[i];
            && (FetchedNext(tokens, front, c, cfg, i)
                ==> IsDue(before, c.now, cfg) && after == Fetched(before, c.now, c.results(tokens[i].key), cfg))
            && (!FetchedNext(tokens, front, c, cfg, i) ==> after == before)
  {
    var front, c := cycles[..|cycles| - 1], cycles[|cycles| - 1];
    KeyStays(tokens, front, cfg, i);
    DistinctStays(tokens, front, cfg);
    PassAt(After(tokens, front, cfg), AddrSet(Due(After(tokens, front, cfg), c.now, cfg)), c, cfg, i);
    if FetchedNext(tokens, front, c, cfg, i) { FetchedIsDue(After(tokens, front, cfg), c.now, cfg, i); }
  }

  // ---------------------------------------------------------------- failing tokens

  predicate Fails(r: Result) { r == Unavailable || r == Broken }

  ghost predicate AlwaysFails(cycles: seq<Cycle>, key: Address) {
    forall i :: 0 <= i < |cycles| ==> Fails(cycles[i].results(key))
  }

  predicate Retired(t: Token) { t.priority == DEAD && t.status == REJECTED }

  /** A token whose fetch always fails: it counts every fetch, and is retired at the moment the count reaches the limit. */
  lemma {:induction false} FailingTokenCounts(tokens: seq<Token>, cycles: seq<Cycle>, cfg: Config, i: nat)
    requires ValidConfig(cfg) && Distinct(tokens) && i < |tokens| && AlwaysFails(cycles, tokens[i].key)
    requires tokens[i].failures == 0 && tokens[i].priority != DEAD
    ensures var t, n := After(tokens, cycles, cfg)[i], Fetches(tokens, cycles, cfg, i);
            && n <= cfg.maxFailures && t.failures == n
            && (n == cfg.maxFailures ==> Retired(t))
            && (n < cfg.maxFailures ==> t.priority == tokens[i].priority && t.status == tokens[i].status)
  {
    if cycles != [] {
      FailingTokenCounts(tokens, cycles[..|cycles| - 1], cfg, i);
      OneMore(tokens, cycles, cfg, i);
    }
  }

  /** Monitoring never touches a dead token again, nor one whose status is not monitored. */
  lemma {:induction false} UnmonitoredStays(tokens: seq<Token>, cycles: seq<Cycle>, cfg: Config, i: nat)
    requires Distinct(tokens) && i < |tokens| && (tokens[i].priority == DEAD || !Monitored(tokens[i].status))
    ensures After(tokens, cycles, cfg)[i] == tokens[i] && Fetches(tokens, cycles, cfg, i) == 0
  {
    if cycles != [] {
      UnmonitoredStays(tokens, cycles[..|cycles| - 1], cfg, i);
      OneMore(tokens, cycles, cfg, i);
    }
  }

  lemma {:induction false} AfterJoin(tokens: seq<Token>, a: seq<Cycle>, b: seq<Cycle>, cfg: Config)
    ensures After(tokens, a + b, cfg) == After(After(tokens, a, cfg), b, cfg)
  {
    if b == [] {
      assert a + b == a;
    } else {
      assert (a + b)[..|a + b| - 1] == a + b[..|b| - 1];
      AfterJoin(tokens, a, b[..|b| - 1], cfg);
    }
  }

  /** A token whose fetch always fails is fetched at most maxFailures times, whatever the clock and the other tokens do.
      When that many fetches have failed it is dead and rejected, and stays so for ever, even if the providers come back. */
  lemma FailingTokensRetire(tokens: seq<Token>, cycles: seq<Cycle>, later: seq<Cycle>, cfg: Config, i: nat)
    requires ValidConfig(cfg) && Distinct(tokens) && i < |tokens| && AlwaysFails(cycles, tokens[i].key)
    requires tokens[i].failures == 0 && tokens[i].priority != DEAD
    ensures Fetches(tokens, cycles, cfg, i) <= cfg.maxFailures
    ensures Fetches(tokens, cycles, cfg, i) == cfg.maxFailures
            ==> Retired(After(tokens, cycles + later, cfg)[i])
                && Fetches(After(tokens, cycles, cfg), later, cfg, i) == 0
  {
    FailingTokenCounts(tokens, cycles, cfg, i);
    if Fetches(tokens, cycles, cfg, i) == cfg.maxFailures {
      DistinctStays(tokens, cycles, cfg);
      UnmonitoredStays(After(tokens, cycles, cfg), later, cfg, i);
      AfterJoin(tokens, cycles, later, cfg);
    }
  }

  /** Errors of the scorer are not counted like that: the snapshot that comes before each of them resets the count, so with a
      limit above one they never retire a token, and with a limit of one the first does. */
  lemma ScoreErrorsRetireIffLimitIsOne(t: Token, now: real, cfg: Config)
    requires ValidConfig(cfg) && t.priority != DEAD
    ensures var t' := Fetched(t, now, ScoreFails, cfg);
            t'.failures == 1 && (t'.priority == DEAD <==> cfg.maxFailures == 1)
  {
  }

  lemma {:induction false} ScoreErrorsAlone(tokens: seq<Token>, cycles: seq<Cycle>, cfg: Config, i: nat)
    requires ValidConfig(cfg) && cfg.maxFailures > 1 && Distinct(tokens) && i < |tokens| && tokens[i].priority != DEAD
    requires forall k :: 0 <= k < |cycles| ==> cycles[k].results(tokens[i].key) == ScoreFails
    ensures var t := After(tokens, cycles, cfg)[i];
            t.priority == tokens[i].priority && t.status == tokens[i].status
  {
    if cycles != [] {
      ScoreErrorsAlone(tokens, cycles[..|cycles| - 1], cfg, i);
      OneMore(tokens, cycles, cfg, i);
    }
  }

  // ---------------------------------------------------------------- how often a token is fetched

  /** When token i was last fetched in the run. */
  function LastFetch(tokens: seq<Token>, cycles: seq<Cycle>, cfg: Config, i: nat): Option<real>
    requires i < |tokens|
  {
    if cycles == [] then None
    else
      var front := cycles[..|cycles| - 1];
      if FetchedNext(tokens, front, cycles[|cycles| - 1], cfg, i) then Some(cycles[|cycles| - 1].now)
      else LastFetch(tokens, front, cfg, i)
  }

  lemma {:induction false} LastIsLastFetch(tokens: seq<Token>, cycles: seq<Cycle>, cfg: Config, i: nat)
    requires Distinct(tokens) && i < |tokens|
    ensures LastFetch(tokens, cycles, cfg, i).Some? ==> After(tokens, cycles, cfg)[i].last == LastFetch(tokens, cycles, cfg, i)
  {
    if cycles != [] {
      LastIsLastFetch(tokens, cycles[..|cycles| - 1], cfg, i);
      OneMore(tokens, cycles, cfg, i);
    }
  }

  /** Two fetches of a token are at least the interval of the priority apart that the first of them left it with, whether
      that fetch went well or not. */
  lemma FetchesAreSpaced(tokens: seq<Token>, cycles: seq<Cycle>, c: Cycle, cfg: Config, i: nat)
    requires Distinct(tokens) && i < |tokens|
    requires FetchedNext(tokens, cycles, c, cfg, i) && LastFetch(tokens, cycles, cfg, i).Some?
    ensures c.now - LastFetch(tokens, cycles, cfg, i).value >= Interval(cfg, After(tokens, cycles, cfg)[i].priority)
    ensures var waited := c.now - LastFetch(tokens, cycles, cfg, i).value;
            match After(tokens, cycles, cfg)[i].priority
            case HOT => waited >= cfg.hot
            case COLD => waited >= cfg.cold
            case _ => waited >= cfg.warm
  {
    LastIsLastFetch(tokens, cycles, cfg, i);
    DistinctStays(tokens, cycles, cfg);
    FetchedIsDue(After(tokens, cycles, cfg), c.now, cfg, i);
  }

  /** Whatever is fetched is still in play, and its interval is over. */
  lemma FetchedIsInPlay(tokens: seq<Token>, now: real, cfg: Config, i: nat)
    requires Distinct(tokens) && i < |tokens| && tokens[i].key in AddrSet(Due(tokens, now, cfg))
    ensures tokens[i].status in {DISCOVERED, SCREENING, WATCHING, IMPROVING, QUALIFIED} && tokens[i].priority != DEAD
    ensures tokens[i].last.Some? ==> now - tokens[i].last.value >= match tokens[i].priority
                                                                   case HOT => cfg.hot
                                                                   case COLD => cfg.cold
                                                                   case _ => cfg.warm
  {
    FetchedIsDue(tokens, now, cfg, i);
  }

  /** What a new score does to a token whose last score is known: a rise by the threshold makes it HOT and IMPROVING, a drop
      by the other COLD and LOST_MOMENTUM, and anything between leaves it, except that a discovered token is watched from
      now on. */
  lemma ScoreMoves(t: Token, now: real, score: real, cfg: Config, last: real)
    requires t.current == Some(last) && last != 0.0 && cfg.decline < cfg.improve
    ensures var t' := Fetched(t, now, Rates(score), cfg);
            && t'.current == Some(score) && t'.last == Some(now) && t'.failures == 0
            && (score - last >= cfg.improve ==> t'.priority == HOT && t'.status == IMPROVING)
            && (score - last <= cfg.decline ==> t'.priority == COLD && t'.status == LOST_MOMENTUM)
            && (cfg.decline < score - last < cfg.improve
                ==> t'.priority == t.priority && t'.status == if t.status == DISCOVERED then WATCHING else t.status)
  {
  }

  /** A cycle fetches at most maxPerCycle tokens; one that is due and left out ranks behind every one that is fetched: it has
      no better priority, and no smaller key at the same priority. */
  lemma BestPriorityFirst(tokens: seq<Token>, now: real, cfg: Config, t: Token, left: Token)
    requires Distinct(tokens) && t in tokens && left in tokens
    requires IsDue(left, now, cfg) && Entry(left) !in Due(tokens, now, cfg) && Entry(t) in Due(tokens, now, cfg)
    ensures |Due(tokens, now, cfg)| <= cfg.maxPerCycle
    ensures Rank(t.priority) < Rank(left.priority) || (Rank(t.priority) == Rank(left.priority) && t.key <= left.key)
    ensures left.priority == HOT ==> t.priority == HOT
    ensures left.priority == WARM ==> t.priority == HOT || t.priority == WARM
    ensures left.priority == COLD ==> t.priority == HOT || t.priority == WARM || t.priority == COLD
  {
    DueIsEntered(tokens, now, cfg, left);
    CutOffRanksBehind(Entries(tokens, now, cfg), cfg.maxPerCycle, Entry(t), Entry(left));
  }

  lemma {:induction false} DueIsEntered(tokens: seq<Token>, now: real, cfg: Config, t: Token)
    requires t in tokens && IsDue(t, now, cfg)
    ensures Entry(t) in Entries(tokens, now, cfg)
  {
    if t != tokens[0] { DueIsEntered(tokens[1..], now, cfg, t); }
  }

  /** A token whose score has dropped gets priority COLD, but also a status that is not monitored: it is never fetched
      again. */
  lemma DeclinedIsNeverFetchedAgain(tokens: seq<Token>, cycles: seq<Cycle>, cfg: Config, i: nat, t: Token, now: real,
                                    score: real)
    requires Distinct(tokens) && i < |tokens| && tokens[i] == Rescored(t, now, score, cfg)
    requires OrElse(t.current, t.initial).Some? && score - OrElse(t.current, t.initial).value <= cfg.decline
    requires cfg.decline < cfg.improve
    ensures tokens[i].priority == COLD && tokens[i].status == LOST_MOMENTUM
    ensures Fetches(tokens, cycles, cfg, i) == 0 && After(tokens, cycles, cfg)[i] == tokens[i]
  {
    UnmonitoredStays(tokens, cycles, cfg, i);
  }

  /** COLD is meant to be slow monitoring.  A COLD token whose interval has passed gets into the queue if and only if its
      status is monitored, ... */
  lemma ColdIsQueuedIffMonitored(tokens: seq<Token>, now: real, cfg: Config, t: Token)
    requires Distinct(tokens) && t in tokens && t.priority == COLD && (t.last.Some? ==> now - t.last.value >= cfg.cold)
    ensures Entry(t) in Entries(tokens, now, cfg) <==> Monitored(t.status)
  {
    if Monitored(t.status) { DueIsEntered(tokens, now, cfg, t); }
    if Entry(t) in Entries(tokens, now, cfg) {
      EntriesAreDue(tokens, now, cfg, Entry(t));
      var u :| u in tokens && IsDue(u, now, cfg) && Entry(t) == Entry(u);
      var i :| 0 <= i < |tokens| && tokens[i] == t;
      var j :| 0 <= j < |tokens| && tokens[j] == u;
    }
  }

  predicate ColdIsLost(t: Token) { t.priority == COLD ==> t.status == LOST_MOMENTUM }

  lemma FetchKeepsColdLost(t: Token, now: real, result: Result, cfg: Config)
    requires ColdIsLost(t)
    ensures ColdIsLost(Fetched(t, now, result, cfg))
  {
  }

  /** ... and monitoring never makes it so: a token that is not COLD to begin with is COLD later only with the status
      LOST_MOMENTUM, and so never slow, but out. */
  lemma {:induction false} ColdMeansLost(tokens: seq<Token>, cycles: seq<Cycle>, cfg: Config, i: nat, now: real)
    requires i < |tokens| && tokens[i].priority != COLD
    ensures var t := After(tokens, cycles, cfg)[i];
            t.priority == COLD ==> t.status == LOST_MOMENTUM && !IsDue(t, now, cfg)
  {
    if cycles != [] {
      var front, c := cycles[..|cycles| - 1], cycles[|cycles| - 1];
      var before := After(tokens, front, cfg);
      ColdMeansLost(tokens, front, cfg, i, now);
      PassAt(before, AddrSet(Due(before, c.now, cfg)), c, cfg, i);
      FetchKeepsColdLost(before[i], c.now, c.results(before[i].key), cfg);
    }
  }

  // ---------------------------------------------------------------- the program

  class Monitor {
    const cfg: Config
    var tokens: seq<Token>

    constructor (cfg: Config, tokens: seq<Token>)
      ensures this.cfg == cfg && this.tokens == tokens
    {
      this.cfg, this.tokens := cfg, tokens;
    }

    method DueCandidates(now: real) returns (due: seq<Scored>)
      ensures due == Due(tokens, now, cfg)
    {
      due := [];
      var i := 0;
      while i < |tokens|
        invariant 0 <= i <= |tokens| && due + Entries(tokens[i..], now, cfg) == Entries(tokens, now, cfg)
      {
        var t := tokens[i];
        assert tokens[i..][1..] == tokens[i + 1..];
        i := i + 1;
        if !Monitored(t.status) || t.priority == DEAD { continue; }
        if t.last.Some? && now - t.last.value < Interval(cfg, t.priority) { continue; }
        due := due + [Entry(t)];
      }
      assert tokens[i..] == [] && due + [] == due;
      due := Take(Best(due), cfg.maxPerCycle);
    }

    /** The place of a token in the registry. */
    method Find(key: Address) returns (i: nat)
      requires exists j :: 0 <= j < |tokens| && tokens[j].key == key
      ensures i < |tokens| && tokens[i].key == key
    {
      i := 0;
      while tokens[i].key != key
        invariant i < |tokens| && exists j :: i <= j < |tokens| && tokens[j].key == key
        decreases |tokens| - i
      {
        i := i + 1;
      }
    }

    /** What run_once does with one token, field by field. */
    method Refresh(t: Token, now: real, result: Result) returns (r: Token)
      ensures r == Fetched(t, now, result, cfg)
    {
      r := t;
      if result.Rates? || result.Unrated? || result.ScoreFails? {
        r := r.(last := Some(now), failures := 0);
      }
      if result.Rates? {
        var score := result.score;
        var previous := if r.current.Some? && r.current.value != 0.0 then r.current else r.initial;
        if r.initial.None? { r := r.(initial := Some(score)); }
        r := r.(current := Some(score));
        if previous.Some? {
          if score - previous.value >= cfg.improve {
            r := r.(status := IMPROVING, priority := HOT);
          } else if score - previous.value <= cfg.decline {
            r := r.(status := LOST_MOMENTUM, priority := COLD);
          }
        }
        if r.status == DISCOVERED { r := r.(status := WATCHING); }
      } else if !result.Unrated? {
        r := r.(failures := r.failures + 1, last := Some(now));
        if r.failures >= cfg.maxFailures { r := r.(priority := DEAD, status := REJECTED); }
      }
    }

    method FetchToken(key: Address, now: real, result: Result) returns (i: nat)
      requires exists j :: 0 <= j < |tokens| && tokens[j].key == key
      modifies this`tokens
      ensures i < |tokens| == |old(tokens)| && old(tokens)[i].key == key
      ensures tokens == old(tokens)[i := Fetched(old(tokens)[i], now, result, cfg)]
    {
      i := Find(key);
      var t := Refresh(tokens[i], now, result);
      tokens := tokens[i := t];
    }

    /** One cycle.  Exactly the tokens of the queue change, each by its own result, and n counts those that went well. */
    method RunOnce(now: real, results: Address -> Result) returns (n: nat)
      requires Distinct(tokens)
      modifies this`tokens
      ensures tokens == AfterCycle(old(tokens), Cycle(now, results), cfg)
      ensures n == Successes(Due(old(tokens), now, cfg), results) && |Due(old(tokens), now, cfg)| <= cfg.maxPerCycle
    {
      var due := DueCandidates(now);
      ghost var start, c := tokens, Cycle(now, results);
      DueDiffer(start, now, cfg);
      NothingPasses(start, c, cfg);
      n := 0;
      var k := 0;
      while k < |due|
        invariant 0 <= k <= |due| && n == Successes(due[..k], results)
        invariant tokens == Pass(start, AddrSet(due[..k]), c, cfg)
      {
        var key := due[k].addr;
        DueIsListed(start, now, cfg, due[k]);
        KeysPass(start, AddrSet(due[..k]), c, cfg, key);
        NextIsNew(due, k);
        var i := FetchToken(key, now, results(key));
        PassMore(start, AddrSet(due[..k]), c, cfg, i);
        SuccessesMore(due, results, k);
        if Succeeds(results(key)) { n := n + 1; }
        k := k + 1;
      }
      assert due[..k] == due;
    }
  }

  predicate Succeeds(r: Result) { r.Rates? || r.Unrated? }

  lemma SuccessesMore(due: seq<Scored>, results: Address -> Result, k: nat)
    requires k < |due|
    ensures Successes(due[..k + 1], results) == Successes(due[..k], results) 
           + if results(due[k].addr).Rates? || results(due[k].addr).Unrated? then 1 else 0
  {
    assert due[..k + 1][..k] == due[..k];
  }

  /** How many tokens of a queue went well. */
  function Successes(due: seq<Scored>, results: Address -> Result): nat {
    if due == [] then 0
    else Successes(due[..|due| - 1], results) + if Succeeds(results(due[|due| - 1].addr)) then 1 else 0
  }

  lemma {:induction false} NothingPasses(tokens: seq<Token>, c: Cycle, cfg: Config)
    ensures Pass(tokens, {}, c, cfg) == tokens
  {
    if tokens != [] { NothingPasses(tokens[1..], c, cfg); }
  }

  lemma KeysPass(tokens: seq<Token>, keys: set<Address>, c: Cycle, cfg: Config, key: Address)
    requires exists j :: 0 <= j < |tokens| && tokens[j].key == key
    ensures exists j :: 0 <= j < |tokens| && Pass(tokens, keys, c, cfg)[j].key == key
  {
    var j :| 0 <= j < |tokens| && tokens[j].key == key;
    PassAt(tokens, keys, c, cfg, j);
  }

  /** One more key: its token alone is fetched too. */
  lemma PassMore(tokens: seq<Token>, keys: set<Address>, c: Cycle, cfg: Config, i: nat)
    requires Distinct(tokens) && i < |tokens| && Pass(tokens, keys, c, cfg)[i].key !in keys
    ensures var before, key := Pass(tokens, keys, c, cfg), tokens[i].key;
            && before[i].key == key
            && Pass(tokens, keys + {key}, c, cfg) == before[i := Fetched(before[i], c.now, c.results(key), cfg)]
  {
    PassAt(tokens, keys, c, cfg, i);
    var key := tokens[i].key;
    forall j | 0 <= j < |tokens|
      ensures Pass(tokens, keys + {key}, c, cfg)[j]
           == Pass(tokens, keys, c, cfg)[i := Fetched(tokens[i], c.now, c.results(key), cfg)][j]
    {
      PassAt(tokens, keys, c, cfg, j);
      PassAt(tokens, keys + {key}, c, cfg, j);
    }
  }

  lemma {:induction false} EntriesDiffer(tokens: seq<Token>, now: real, cfg: Config)
    requires Distinct(tokens)
    ensures AllDifferent(Entries(tokens, now, cfg))
  {
    if tokens != [] {
      EntriesDiffer(tokens[1..], now, cfg);
      var rest := Entries(tokens[1..], now, cfg);
      if tokens[0].key in AddrSet(rest) {
        AddrSetMembers(rest, tokens[0].key);
        var e :| e in rest && e.addr == tokens[0].key;
        EntriesAreDue(tokens[1..], now, cfg, e);
      }
      assert ([Entry(tokens[0])] + rest)[1..] == rest;
    }
  }

  lemma DueDiffer(tokens: seq<Token>, now: real, cfg: Config)
    requires Distinct(tokens)
    ensures AllDifferent(Due(tokens, now, cfg))
  {
    EntriesDiffer(tokens, now, cfg);
    BestIsOrdered(Entries(tokens, now, cfg));
    SameAddrSet(Best(Entries(tokens, now, cfg)), Entries(tokens, now, cfg));
    TakeDiffers(Best(Entries(tokens, now, cfg)), cfg.maxPerCycle);
  }

  lemma DueIsListed(tokens: seq<Token>, now: real, cfg: Config, e: Scored)
    requires e in Due(tokens, now, cfg)
    ensures exists i :: 0 <= i < |tokens| && tokens[i].key == e.addr
  {
    BestIsOrdered(Entries(tokens, now, cfg));
    assert e in multiset(Best(Entries(tokens, now, cfg)));
    EntriesAreDue(tokens, now, cfg, e);
    var t :| t in tokens && IsDue(t, now, cfg) && e == Entry(t);
    var j :| 0 <= j < |tokens| && tokens[j] == t;
  }
}
