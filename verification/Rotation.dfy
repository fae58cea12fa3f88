/** Rotation: how many cycles of the cloud worker it takes until every token that is due gets its turn. */
module Rotation {
  // A cycle ranks the tokens of the registry (backend/app/discovery/ranking.py) against the evaluation times that the
  // worker keeps between cycles, and the evaluation stamps the tokens it got to (backend/runner/cloud_worker.py).

  import opened BestFirst
  import opened Common
  import opened Ranking

  /** One cycle of the worker: what it saw, and the evaluation times it wrote. */
  datatype Cycle = Cycle(now: real, tokens: seq<Token>, stamps: map<Address, real>)

  function EvalAt(first: map<Address, real>, cycles: seq<Cycle>): map<Address, real> {
    if cycles == [] then first else EvalAt(first, cycles[..|cycles| - 1]) + cycles[|cycles| - 1].stamps
  }

  function ChosenAt(first: map<Address, real>, cycles: seq<Cycle>, i: nat, cfg: Config): set<Address>
    requires i < |cycles|
  {
    Chosen(cycles[i].tokens, EvalAt(first, cycles[..i]), cycles[i].now, cfg)
  }

  function EligibleAt(first: map<Address, real>, cycles: seq<Cycle>, i: nat, cfg: Config): set<Address>
    requires i < |cycles|
  {
    EligibleAddrs(cycles[i].tokens, EvalAt(first, cycles[..i]), cycles[i].now, cfg)
  }

  ghost predicate CycleOk(first: map<Address, real>, cycles: seq<Cycle>, i: nat, cfg: Config, from: real,
                          everyone: set<Address>, missed: nat)
    requires i < |cycles|
  {
    && from <= cycles[i].now < from + cfg.interval
    && (forall a :: a in cycles[i].stamps ==> cycles[i].stamps[a] >= from)
    && Distinct(cycles[i].tokens)
    && EligibleAt(first, cycles, i, cfg) <= everyone
    && |ChosenAt(first, cycles, i, cfg) - cycles[i].stamps.Keys| <= missed
  }

  /** The cycles fit strictly inside one interval that begins at `from`, each lists no address twice, considers no eligible
      token outside `everyone`, and fails to stamp at most `missed` of the tokens it is given. */
  ghost predicate Rotates(first: map<Address, real>, cycles: seq<Cycle>, cfg: Config, from: real, everyone: set<Address>,
                          missed: nat)
  {
    cfg.interval > 0.0 && forall i: nat :: i < |cycles| ==> CycleOk(first, cycles, i, cfg, from, everyone, missed)
  }

  function Elements(addrs: seq<Address>): set<Address> { set a | a in addrs }

  lemma {:induction false} ElementsSmall(addrs: seq<Address>)
    ensures |Elements(addrs)| <= |addrs|
  {
    if addrs != [] {
      ElementsSmall(addrs[1..]);
      assert Elements(addrs) == {addrs[0]} + Elements(addrs[1..]);
      UnionSmall({addrs[0]}, Elements(addrs[1..]));
    }
  }

  /** One cycle of the worker: rank the registry, evaluate what is chosen, keep the stamps.  A chosen token is left without a
      stamp only for an open position, for want of data, or behind the place `cut` where the time ran out or the cap was
      reached; so these bound what a rotation misses.  None: the ranking fails. */
  method WorkerCycle(tokens: seq<Token>, evalAt: map<Address, real>, now: real, later: real, cfg: Config,
                     open: set<Address>, data: set<Address>, budget: nat)
    returns (c: Option<Cycle>, cut: nat)
    requires now <= later
    ensures c.None? <==> exists t :: t in tokens && Eligible(t, evalAt, now, cfg) && DivisionFails(t, evalAt, cfg)
    ensures c.Some? ==>
              && c.value.now == now && c.value.tokens == tokens && c.value.stamps.Keys <= Chosen(tokens, evalAt, now, cfg)
              && (forall a :: a in c.value.stamps ==> c.value.stamps[a] == later && a !in open && a in data)
    ensures c.Some? ==>
              var chosen, room := Chosen(tokens, evalAt, now, cfg), |Take(Ranked(tokens, evalAt, now, cfg), Limit(cfg))|;
              && cut <= room && |chosen - c.value.stamps.Keys| <= |chosen * open| + |chosen - data| + (room - cut)
              && (cut == room || cut == budget || (cfg.interval > 0.0 ==> |c.value.stamps| >= cfg.maxPerCycle))
  {
    cut := 0;
    var selected := RankCandidates(tokens, evalAt, now, cfg);
    if selected.None? { return None, 0; }
    var stamps, n;
    stamps, n, cut := EvaluateCandidates(selected.value, evalAt, later, cfg.interval, cfg.maxPerCycle, open, data, budget);
    c := Some(Cycle(now, tokens, stamps));
    ghost var kept := Take(Ranked(tokens, evalAt, now, cfg), Limit(cfg));
    AddressesAsSet(kept);
    AddressesLength(kept);
    SelectedAreNotRecent(tokens, evalAt, now, later, cfg);
    MissedAtMost(selected.value, AddrSet(kept), stamps.Keys, open, data, cut);
    forall a | a in stamps ensures a in AddrSet(kept) { FrontIn(selected.value, cut, a); }
  }

  lemma FrontIn(addrs: seq<Address>, cut: nat, a: Address)
    requires cut <= |addrs| && a in addrs[..cut]
    ensures a in addrs
  {
  }

  lemma SelectedAreNotRecent(tokens: seq<Token>, evalAt: map<Address, real>, now: real, later: real, cfg: Config)
    requires now <= later
    ensures forall a :: a in Chosen(tokens, evalAt, now, cfg) ==> !Recent(evalAt, a, later, cfg.interval)
  {
    var candidates := Candidates(tokens, evalAt, now, cfg);
    CandidatesAreEligible(tokens, evalAt, now, cfg);
    BestIsOrdered(candidates);
    forall a | a in Chosen(tokens, evalAt, now, cfg) ensures !Recent(evalAt, a, later, cfg.interval) {
      var kept := Take(Ranked(tokens, evalAt, now, cfg), Limit(cfg));
      AddrSetMembers(kept, a);
      var c :| c in kept && c.addr == a;
      assert c in multiset(Best(candidates));
      AddrSetMembers(candidates, a);
      EligibleIsNotRecent(tokens, evalAt, now, cfg, a);
    }
  }

  lemma MissedAtMost(addrs: seq<Address>, chosen: set<Address>, stamped: set<Address>, open: set<Address>, data: set<Address>,
                     cut: nat)
    requires cut <= |addrs| && (forall a :: a in addrs <==> a in chosen)
    requires forall a :: a in addrs[..cut] && a !in open && a in data ==> a in stamped
    ensures |chosen - stamped| <= |chosen * open| + |chosen - data| + (|addrs| - cut)
  {
    var rest := Elements(addrs[cut..]);
    forall a | a in chosen - stamped ensures a in (chosen * open + (chosen - data)) + rest {
      if a !in rest { assert a in addrs[..cut] by { assert addrs == addrs[..cut] + addrs[cut..]; } }
    }
    SubsetNotLarger(chosen - stamped, (chosen * open + (chosen - data)) + rest);
    UnionSmall(chosen * open + (chosen - data), rest);
    UnionSmall(chosen * open, chosen - data);
    ElementsSmall(addrs[cut..]);
  }

  lemma {:induction false} EligibleIsNotRecent(tokens: seq<Token>, evalAt: map<Address, real>, now: real, cfg: Config,
                                              a: Address)
    requires a in EligibleAddrs(tokens, evalAt, now, cfg)
    ensures !Recent(evalAt, a, now, cfg.interval)
  {
    if !(Eligible(tokens[0], evalAt, now, cfg) && a == tokens[0].addr) {
      EligibleIsNotRecent(tokens[1..], evalAt, now, cfg, a);
    }
  }

  function Times(n: nat, m: nat): nat { if n == 0 then 0 else Times(n - 1, m) + m }

  lemma {:induction false} TimesIsProduct(n: nat, m: nat)
    ensures Times(n, m) == n * m
  {
    if n > 0 {
      TimesIsProduct(n - 1, m);
      assert n * m == (n - 1) * m + m;
    }
  }

  /** Every token that was chosen and stamped in one of the cycles. */
  function Evaluated(first: map<Address, real>, cycles: seq<Cycle>, cfg: Config): set<Address>
  {
    if cycles == [] then {}
    else
      var last := |cycles| - 1;
      Evaluated(first, cycles[..last], cfg) + ChosenAt(first, cycles, last, cfg) * cycles[last].stamps.Keys
  }

  lemma FrontCycleOk(first: map<Address, real>, cycles: seq<Cycle>, i: nat, cfg: Config, from: real,
                     everyone: set<Address>, missed: nat)
    requires i < |cycles| - 1 && CycleOk(first, cycles, i, cfg, from, everyone, missed)
    ensures CycleOk(first, cycles[..|cycles| - 1], i, cfg, from, everyone, missed)
  {
    assert cycles[..|cycles| - 1][..i] == cycles[..i];
  }

  lemma PrefixRotates(first: map<Address, real>, cycles: seq<Cycle>, cfg: Config, from: real, everyone: set<Address>,
                      missed: nat)
    requires Rotates(first, cycles, cfg, from, everyone, missed) && cycles != []
    ensures Rotates(first, cycles[..|cycles| - 1], cfg, from, everyone, missed)
  {
    var front := cycles[..|cycles| - 1];
    forall i: nat | i < |front| ensures CycleOk(first, front, i, cfg, from, everyone, missed) {
      FrontCycleOk(first, cycles, i, cfg, from, everyone, missed);
    }
  }

  /** What was evaluated within the interval is not eligible again. */
  lemma {:induction false} EvaluatedIsRecent(first: map<Address, real>, cycles: seq<Cycle>, cfg: Config, from: real,
                                             everyone: set<Address>, missed: nat, a: Address)
    requires Rotates(first, cycles, cfg, from, everyone, missed)
    requires a in Evaluated(first, cycles, cfg)
    ensures a in everyone && a in EvalAt(first, cycles) && EvalAt(first, cycles)[a] >= from
  {
    var last := |cycles| - 1;
    assert CycleOk(first, cycles, last, cfg, from, everyone, missed);
    if a in ChosenAt(first, cycles, last, cfg) * cycles[last].stamps.Keys {
      ChosenFillsTheCycle(cycles[last].tokens, EvalAt(first, cycles[..last]), cycles[last].now, cfg);
      assert a in EligibleAt(first, cycles, last, cfg);
    } else {
      PrefixRotates(first, cycles, cfg, from, everyone, missed);
      EvaluatedIsRecent(first, cycles[..last], cfg, from, everyone, missed, a);
    }
  }

  /** The tokens evaluated in the last cycle are new ones. */
  lemma LastCycleIsFresh(first: map<Address, real>, cycles: seq<Cycle>, cfg: Config, from: real, everyone: set<Address>,
                         missed: nat)
    requires Rotates(first, cycles, cfg, from, everyone, missed) && cycles != []
    ensures Evaluated(first, cycles[..|cycles| - 1], cfg) * ChosenAt(first, cycles, |cycles| - 1, cfg) == {}
  {
    var last := |cycles| - 1;
    var before := cycles[..last];
    assert CycleOk(first, cycles, last, cfg, from, everyone, missed);
    PrefixRotates(first, cycles, cfg, from, everyone, missed);
    forall a | a in Evaluated(first, before, cfg) && a in ChosenAt(first, cycles, last, cfg) ensures false {
      EvaluatedIsRecent(first, before, cfg, from, everyone, missed, a);
      ChosenFillsTheCycle(cycles[last].tokens, EvalAt(first, before), cycles[last].now, cfg);
      EligibleIsNotRecent(cycles[last].tokens, EvalAt(first, before), cycles[last].now, cfg, a);
    }
  }

  /** How many tokens a full cycle evaluates at least. */
  function Progress(cfg: Config, missed: nat): nat { if missed < Limit(cfg) then Limit(cfg) - missed else 0 }

  /** Eligible in every cycle and never chosen. */
  ghost predicate PassedOver(first: map<Address, real>, cycles: seq<Cycle>, cfg: Config, a: Address) {
    forall i: nat :: i < |cycles| ==> a in EligibleAt(first, cycles, i, cfg) && a !in ChosenAt(first, cycles, i, cfg)
  }

  lemma PassedOverBefore(first: map<Address, real>, cycles: seq<Cycle>, cfg: Config, a: Address)
    requires PassedOver(first, cycles, cfg, a) && cycles != []
    ensures PassedOver(first, cycles[..|cycles| - 1], cfg, a)
  {
    var front := cycles[..|cycles| - 1];
    forall i: nat | i < |front|
      ensures a in EligibleAt(first, front, i, cfg) && a !in ChosenAt(first, front, i, cfg)
    {
      assert front[..i] == cycles[..i];
      assert a in EligibleAt(first, cycles, i, cfg) && a !in ChosenAt(first, cycles, i, cfg);
    }
  }

  /** A cycle that passes over an eligible token is full. */
  lemma LastCycleIsFull(first: map<Address, real>, cycles: seq<Cycle>, cfg: Config, from: real, everyone: set<Address>,
                        missed: nat, a: Address)
    requires Rotates(first, cycles, cfg, from, everyone, missed) && cycles != [] && PassedOver(first, cycles, cfg, a)
    ensures var chosen := ChosenAt(first, cycles, |cycles| - 1, cfg);
            |chosen| == Limit(cfg) && a !in chosen && a in everyone && chosen <= everyone
  {
    var last := |cycles| - 1;
    assert CycleOk(first, cycles, last, cfg, from, everyone, missed);
    var chosen, eligible := ChosenAt(first, cycles, last, cfg), EligibleAt(first, cycles, last, cfg);
    ChosenFillsTheCycle(cycles[last].tokens, EvalAt(first, cycles[..last]), cycles[last].now, cfg);
    assert a in eligible && a !in chosen;
    FullUnlessAllChosen(chosen, eligible, a, Limit(cfg));
  }

  lemma FullUnlessAllChosen(chosen: set<Address>, eligible: set<Address>, a: Address, limit: nat)
    requires chosen <= eligible && a in eligible && a !in chosen
    requires |chosen| == if |eligible| <= limit then |eligible| else limit
    ensures |chosen| == limit
  {
    assert eligible == chosen + (eligible - chosen);
    assert a in eligible - chosen;
  }

  /** As long as a due token is passed over, every cycle is full and evaluates limit - missed tokens it had not evaluated
      before. */
  lemma {:induction false} PassedOverMeansProgress(first: map<Address, real>, cycles: seq<Cycle>, cfg: Config, from: real,
                                                   everyone: set<Address>, missed: nat, a: Address)
    requires Rotates(first, cycles, cfg, from, everyone, missed) && PassedOver(first, cycles, cfg, a)
    ensures |Evaluated(first, cycles, cfg)| >= Times(|cycles|, Progress(cfg, missed))
    ensures a !in Evaluated(first, cycles, cfg)
  {
    if cycles != [] {
      var last := |cycles| - 1;
      var front := cycles[..last];
      PrefixRotates(first, cycles, cfg, from, everyone, missed);
      PassedOverBefore(first, cycles, cfg, a);
      PassedOverMeansProgress(first, front, cfg, from, everyone, missed, a);
      LastCycleIsFull(first, cycles, cfg, from, everyone, missed, a);
      LastCycleIsFresh(first, cycles, cfg, from, everyone, missed);
      assert CycleOk(first, cycles, last, cfg, from, everyone, missed);
      Grow(Evaluated(first, front, cfg), ChosenAt(first, cycles, last, cfg), cycles[last].stamps.Keys, Limit(cfg), missed);
    }
  }

  lemma Grow(before: set<Address>, chosen: set<Address>, stamped: set<Address>, limit: nat, missed: nat)
    requires before * chosen == {} && |chosen| == limit && |chosen - stamped| <= missed
    ensures |before + chosen * stamped| >= |before| + if missed < limit then limit - missed else 0
  {
    assert chosen == chosen * stamped + (chosen - stamped);
    assert before * (chosen * stamped) == {};
  }

  lemma EvaluatedWithin(first: map<Address, real>, cycles: seq<Cycle>, cfg: Config, from: real, everyone: set<Address>,
                        missed: nat)
    requires Rotates(first, cycles, cfg, from, everyone, missed)
    ensures Evaluated(first, cycles, cfg) <= everyone
  {
    forall b | b in Evaluated(first, cycles, cfg) ensures b in everyone {
      EvaluatedIsRecent(first, cycles, cfg, from, everyone, missed, b);
    }
  }

  /** A token can be passed over in all of K cycles only if there are too many others: those evaluated in the cycles before
      the last, and all that the last one chooses, stamped or not. */
  lemma PassedOverNeedsACrowd(first: map<Address, real>, cycles: seq<Cycle>, cfg: Config, from: real,
                              everyone: set<Address>, missed: nat, a: Address)
    requires Rotates(first, cycles, cfg, from, everyone, missed) && cycles != [] && PassedOver(first, cycles, cfg, a)
    ensures |everyone| > Times(|cycles| - 1, Progress(cfg, missed)) + Limit(cfg)
  {
    var front := cycles[..|cycles| - 1];
    PrefixRotates(first, cycles, cfg, from, everyone, missed);
    PassedOverBefore(first, cycles, cfg, a);
    PassedOverMeansProgress(first, front, cfg, from, everyone, missed, a);
    LastCycleIsFull(first, cycles, cfg, from, everyone, missed, a);
    LastCycleIsFresh(first, cycles, cfg, from, everyone, missed);
    EvaluatedWithin(first, front, cfg, from, everyone, missed);
    StrictlyMore(Evaluated(first, front, cfg), ChosenAt(first, cycles, |cycles| - 1, cfg), everyone, a);
  }

  lemma StrictlyMore(before: set<Address>, last: set<Address>, all: set<Address>, a: Address)
    requires before <= all && last <= all && before * last == {} && a in all && a !in before && a !in last
    ensures |all| > |before| + |last|
  {
    assert all == (before + last) + (all - (before + last)) && a in all - (before + last);
  }

  /** How many eligible tokens K cycles are enough for. */
  function Reach(cfg: Config, cycles: nat, missed: nat): nat
    requires cycles > 0
  {
    (cycles - 1) * Progress(cfg, missed) + Limit(cfg)
  }

  /** No starvation.  If K cycles fit strictly inside one evaluation interval, each leaves at most `missed` of its tokens
      without a stamp, and at most (K - 1) * (limit - missed) + limit tokens are eligible in any of them, then a token that is
      due in every one of these cycles is chosen in at least one.  If everything chosen is stamped that is K times the limit. */
  lemma EveryDueTokenIsChosen(first: map<Address, real>, cycles: seq<Cycle>, cfg: Config, from: real,
                              everyone: set<Address>, missed: nat, a: Address)
    requires Rotates(first, cycles, cfg, from, everyone, missed) && cycles != []
    requires |everyone| <= Reach(cfg, |cycles|, missed)
    requires DueThroughout(first, cycles, cfg, a)
    ensures ChosenOnce(first, cycles, cfg, a)
  {
    TimesIsProduct(|cycles| - 1, Progress(cfg, missed));
    if !ChosenOnce(first, cycles, cfg, a) {
      NeverChosen(first, cycles, cfg, a);
      PassedOverNeedsACrowd(first, cycles, cfg, from, everyone, missed, a);
      assert false;
    }
  }

  ghost predicate ChosenOnce(first: map<Address, real>, cycles: seq<Cycle>, cfg: Config, a: Address) {
    exists i: nat :: i < |cycles| && a in ChosenAt(first, cycles, i, cfg)
  }

  /** Due in every cycle until it is chosen. */
  ghost predicate DueThroughout(first: map<Address, real>, cycles: seq<Cycle>, cfg: Config, a: Address) {
    forall i: nat :: i < |cycles| && (forall j: nat :: j < i ==> a !in ChosenAt(first, cycles, j, cfg))
      ==> a in EligibleAt(first, cycles, i, cfg)
  }

  lemma NeverChosen(first: map<Address, real>, cycles: seq<Cycle>, cfg: Config, a: Address)
    requires DueThroughout(first, cycles, cfg, a) && !ChosenOnce(first, cycles, cfg, a)
    ensures PassedOver(first, cycles, cfg, a)
  {
  }

  // ---------------------------------------------------------------- the bound is sharp

  /** The tokens lo..hi - 1, all alike except that a lower number scores higher. */
  function Tokens(lo: int, hi: int, seen: real): seq<Token>
    decreases hi - lo
  {
    if lo >= hi then [] else [Token(lo, false, Some(seen), None, None, -lo as real)] + Tokens(lo + 1, hi, seen)
  }

  predicate InRange(lo: int, a: int, hi: int) { lo <= a < hi }

  function Range(lo: int, hi: int): set<Address> { set a: int | lo <= a < hi && InRange(lo, a, hi) }

  lemma {:induction false} RangeSize(lo: int, hi: int)
    requires lo <= hi
    ensures |Range(lo, hi)| == hi - lo
    decreases hi - lo
  {
    if lo < hi {
      RangeSize(lo + 1, hi);
      assert Range(lo, hi) == {lo} + Range(lo + 1, hi);
    }
  }

  /** evalAt holds exactly the tokens lo..hi - 1, all evaluated too recently to be eligible at the time now. */
  ghost predicate Stamped(evalAt: map<Address, real>, lo: int, hi: int, now: real, interval: real) {
    evalAt.Keys == Range(lo, hi) && forall a :: a in evalAt ==> now - evalAt[a] < interval
  }

  lemma {:induction false} TokensAreDistinct(lo: int, hi: int, seen: real)
    ensures TokenAddrs(Tokens(lo, hi, seen)) == Range(lo, hi) && Distinct(Tokens(lo, hi, seen))
    decreases hi - lo
  {
    if lo < hi {
      TokensAreDistinct(lo + 1, hi, seen);
      assert Tokens(lo, hi, seen)[1..] == Tokens(lo + 1, hi, seen);
      assert Range(lo, hi) == {lo} + Range(lo + 1, hi);
    }
  }

  lemma {:induction false} UnstampedAreEligible(lo: int, hi: int, now: real, evalAt: map<Address, real>, s: int, e: int,
                                               cfg: Config)
    requires Stamped(evalAt, s, e, now, cfg.interval)
    ensures EligibleAddrs(Tokens(lo, hi, now - cfg.maxAge), evalAt, now, cfg) == Range(lo, hi) - Range(s, e)
    decreases hi - lo
  {
    if lo < hi {
      var seen := now - cfg.maxAge;
      UnstampedAreEligible(lo + 1, hi, now, evalAt, s, e, cfg);
      assert Tokens(lo, hi, seen)[1..] == Tokens(lo + 1, hi, seen);
      var t := Tokens(lo, hi, seen)[0];
      assert t.addr == lo && (Eligible(t, evalAt, now, cfg) <==> lo !in Range(s, e));
    }
  }

  lemma {:induction false} ScoresFall(lo: int, hi: int, now: real, evalAt: map<Address, real>, s: int, e: int, cfg: Config,
                                     c: Scored)
    requires Stamped(evalAt, s, e, now, cfg.interval) && c in Candidates(Tokens(lo, hi, now - cfg.maxAge), evalAt, now, cfg)
    ensures c.score == 30.0 - c.addr as real
    decreases hi - lo
  {
    var seen := now - cfg.maxAge;
    var t := Tokens(lo, hi, seen)[0];
    assert Tokens(lo, hi, seen)[1..] == Tokens(lo + 1, hi, seen);
    if c !in Candidates(Tokens(lo + 1, hi, seen), evalAt, now, cfg) {
      assert c == Scored(Score(t, evalAt, now, cfg), t.addr) && Eligible(t, evalAt, now, cfg);
    } else {
      ScoresFall(lo + 1, hi, now, evalAt, s, e, cfg, c);
    }
  }

  /** Every entry of the addresses s scores higher than every other entry. */
  ghost predicate Outscores(cs: seq<Scored>, s: set<Address>) {
    forall c, d :: c in cs && d in cs && c.addr in s && d.addr !in s ==> c.score > d.score
  }

  /** If the members of s, as many as a cycle takes, all score higher than every other candidate, they are chosen. */
  lemma HighestAreChosen(tokens: seq<Token>, evalAt: map<Address, real>, now: real, cfg: Config, s: set<Address>)
    requires Distinct(tokens) && s <= EligibleAddrs(tokens, evalAt, now, cfg) && |s| == Limit(cfg)
    requires Outscores(Candidates(tokens, evalAt, now, cfg), s)
    ensures Chosen(tokens, evalAt, now, cfg) == s
  {
    var chosen, candidates := Chosen(tokens, evalAt, now, cfg), Candidates(tokens, evalAt, now, cfg);
    ChosenFillsTheCycle(tokens, evalAt, now, cfg);
    SubsetNotLarger(s, EligibleAddrs(tokens, evalAt, now, cfg));
    forall b | b in chosen ensures b in s {
      if b !in s {
        var a := OneIsMissing(s, chosen, b);
        LowerIsNotKept(tokens, evalAt, now, cfg, a, b);
        assert false;
      }
    }
    SameSize(chosen, s);
  }

  /** If b is chosen and the candidate a is not, then b does not score lower. */
  lemma LowerIsNotKept(tokens: seq<Token>, evalAt: map<Address, real>, now: real, cfg: Config, a: Address, b: Address)
    requires a in EligibleAddrs(tokens, evalAt, now, cfg) && a !in Chosen(tokens, evalAt, now, cfg)
    requires b in Chosen(tokens, evalAt, now, cfg)
    ensures exists c, d :: c in Candidates(tokens, evalAt, now, cfg) && d in Candidates(tokens, evalAt, now, cfg)
              && c.addr == a && d.addr == b && c.score <= d.score
  {
    var candidates := Candidates(tokens, evalAt, now, cfg);
    var kept := Take(Ranked(tokens, evalAt, now, cfg), Limit(cfg));
    CandidatesAreEligible(tokens, evalAt, now, cfg);
    AddrSetMembers(candidates, a);
    AddrSetMembers(kept, b);
    AddrSetMembers(kept, a);
    var c :| c in candidates && c.addr == a;
    var d :| d in kept && d.addr == b;
    BestIsOrdered(candidates);
    assert d in multiset(Best(candidates));
    LeftOutRanksBehind(tokens, evalAt, now, cfg, d, c);
  }

  lemma SubsetNotLarger(a: set<Address>, b: set<Address>)
    requires a <= b
    ensures |a| <= |b|
  {
    assert b == a + (b - a);
  }

  lemma OneIsMissing(s: set<Address>, t: set<Address>, b: Address) returns (a: Address)
    requires |s| == |t| && b in t && b !in s
    ensures a in s && a !in t
  {
    if forall x :: x in s ==> x in t {
      StrictSubset(s, t, b);
      assert false;
    }
    a :| a in s && a !in t;
  }

  lemma StrictSubset(s: set<Address>, t: set<Address>, b: Address)
    requires s <= t && b in t && b !in s
    ensures |s| < |t|
  {
    assert t == s + (t - s) && b in t - s;
  }

  lemma SameSize(a: set<Address>, b: set<Address>)
    requires a <= b && |a| == |b|
    ensures a == b
  {
    assert b == a + (b - a);
  }

  /** How many of the highest tokens are never stamped in the run below. */
  function Stuck(cfg: Config, missed: nat): nat { if missed < Limit(cfg) then missed else Limit(cfg) }

  /** Where the tokens begin that cycle i evaluates. */
  function Block(cfg: Config, missed: nat, i: nat): nat { Stuck(cfg, missed) + Times(i, Progress(cfg, missed)) }

  /** Cycle i of the worst run, at the time now: it stamps one block, and has nothing to evaluate the stuck tokens with. */
  function WorstCycle(cfg: Config, missed: nat, total: nat, i: nat, now: real): Cycle {
    Cycle(now, Tokens(0, total, now - cfg.maxAge), StampAll(Range(Block(cfg, missed, i), Block(cfg, missed, i + 1)), now))
  }

  function StampAll(addrs: set<Address>, now: real): map<Address, real> { map a | a in addrs :: now }

  ghost predicate IsWorst(cycles: seq<Cycle>, cfg: Config, missed: nat, total: nat, at: nat -> real) {
    forall i: nat :: i < |cycles| ==> cycles[i] == WorstCycle(cfg, missed, total, i, at(i))
  }

  /** The times at which the cycles happen lie inside one interval. */
  ghost predicate InsideInterval(at: nat -> real, from: real, interval: real) {
    forall i: nat :: from <= at(i) < from + interval
  }

  lemma {:induction false} BlocksFollow(cfg: Config, missed: nat, i: nat, k: nat)
    requires i <= k
    ensures Stuck(cfg, missed) <= Block(cfg, missed, i) <= Block(cfg, missed, k)
    ensures Stuck(cfg, missed) + Progress(cfg, missed) == Limit(cfg)
  {
    if i < k { BlocksFollow(cfg, missed, i, k - 1); }
  }

  lemma StampMore(evalAt: map<Address, real>, lo: int, mid: int, hi: int, earlier: real, now: real, interval: real)
    requires lo <= mid <= hi && Stamped(evalAt, lo, mid, now, interval) && now - earlier < interval
    ensures Stamped(evalAt + StampAll(Range(mid, hi), earlier), lo, hi, now, interval)
  {
    assert Range(lo, mid) + Range(mid, hi) == Range(lo, hi);
  }

  lemma {:induction false} WorstStamps(cycles: seq<Cycle>, cfg: Config, missed: nat, total: nat, at: nat -> real, from: real,
                                       now: real)
    requires IsWorst(cycles, cfg, missed, total, at)
    requires InsideInterval(at, from, cfg.interval) && from <= now < from + cfg.interval
    ensures Stamped(EvalAt(map[], cycles), Stuck(cfg, missed), Block(cfg, missed, |cycles|), now, cfg.interval)
  {
    if cycles != [] {
      var n := |cycles| - 1;
      WorstStamps(cycles[..n], cfg, missed, total, at, from, now);
      BlocksFollow(cfg, missed, n, n + 1);
      assert from <= at(n) && cycles[n] == WorstCycle(cfg, missed, total, n, at(n));
      StampMore(EvalAt(map[], cycles[..n]), Stuck(cfg, missed), Block(cfg, missed, n), Block(cfg, missed, n + 1), at(n), now,
                cfg.interval);
    }
  }

  /** What a cycle considers and chooses among the tokens 0..total - 1 when s..b - 1 are stamped. */
  lemma Choice(total: nat, now: real, evalAt: map<Address, real>, s: nat, b: nat, b': nat, cfg: Config)
    requires Stamped(evalAt, s, b, now, cfg.interval) && s <= b <= b' < total && s + (b' - b) == Limit(cfg)
    ensures var tokens := Tokens(0, total, now - cfg.maxAge);
            && EligibleAddrs(tokens, evalAt, now, cfg) == Range(0, total) - Range(s, b)
            && Chosen(tokens, evalAt, now, cfg) == Range(0, s) + Range(b, b')
  {
    TokensAreDistinct(0, total, now - cfg.maxAge);
    UnstampedAreEligible(0, total, now, evalAt, s, b, cfg);
    TopOutscores(total, now, evalAt, s, b, b', cfg);
    TopIsChosen(Tokens(0, total, now - cfg.maxAge), evalAt, now, cfg, total, s, b, b');
  }

  lemma TopIsChosen(tokens: seq<Token>, evalAt: map<Address, real>, now: real, cfg: Config, total: nat, s: nat, b: nat, b': nat)
    requires Distinct(tokens) && s <= b <= b' < total && s + (b' - b) == Limit(cfg)
    requires EligibleAddrs(tokens, evalAt, now, cfg) == Range(0, total) - Range(s, b)
    requires Outscores(Candidates(tokens, evalAt, now, cfg), Range(0, s) + Range(b, b'))
    ensures Chosen(tokens, evalAt, now, cfg) == Range(0, s) + Range(b, b')
  {
    TopHasLimit(s, b, b', Limit(cfg));
    TopIsEligible(total, s, b, b');
    HighestAreChosen(tokens, evalAt, now, cfg, Range(0, s) + Range(b, b'));
  }

  lemma TopIsEligible(total: nat, s: nat, b: nat, b': nat)
    requires s <= b <= b' < total
    ensures Range(0, s) + Range(b, b') <= Range(0, total) - Range(s, b)
  {
  }

  lemma BlockSizes(cfg: Config, missed: nat, i: nat, k: nat)
    requires i < k
    ensures Stuck(cfg, missed) <= Block(cfg, missed, i) <= Block(cfg, missed, i + 1) <= Block(cfg, missed, k)
    ensures Stuck(cfg, missed) + (Block(cfg, missed, i + 1) - Block(cfg, missed, i)) == Limit(cfg)
  {
    BlocksFollow(cfg, missed, i, i + 1);
    BlocksFollow(cfg, missed, i + 1, k);
  }

  /** What cycle i of such a run starts from. */
  lemma WorstStart(cycles: seq<Cycle>, cfg: Config, missed: nat, total: nat, at: nat -> real, from: real, i: nat)
    requires IsWorst(cycles, cfg, missed, total, at) && i < |cycles| && InsideInterval(at, from, cfg.interval)
    ensures Stamped(EvalAt(map[], cycles[..i]), Stuck(cfg, missed), Block(cfg, missed, i), cycles[i].now, cfg.interval)
    ensures cycles[i].tokens == Tokens(0, total, cycles[i].now - cfg.maxAge) && from <= cycles[i].now < from + cfg.interval
    ensures cycles[i].stamps == StampAll(Range(Block(cfg, missed, i), Block(cfg, missed, i + 1)), cycles[i].now)
  {
    assert from <= at(i) < from + cfg.interval && cycles[i] == WorstCycle(cfg, missed, total, i, at(i));
    WorstStamps(cycles[..i], cfg, missed, total, at, from, at(i));
  }

  lemma DistinctIn(tokens: seq<Token>, total: nat, seen: real)
    requires tokens == Tokens(0, total, seen)
    ensures Distinct(tokens)
  {
    TokensAreDistinct(0, total, seen);
  }

  lemma ChoiceIn(cycles: seq<Cycle>, i: nat, cfg: Config, total: nat, s: nat, b: nat, b': nat)
    requires i < |cycles| && cycles[i].tokens == Tokens(0, total, cycles[i].now - cfg.maxAge)
    requires Stamped(EvalAt(map[], cycles[..i]), s, b, cycles[i].now, cfg.interval)
    requires s <= b <= b' < total && s + (b' - b) == Limit(cfg)
    ensures EligibleAt(map[], cycles, i, cfg) == Range(0, total) - Range(s, b)
    ensures ChosenAt(map[], cycles, i, cfg) == Range(0, s) + Range(b, b')
  {
    Choice(total, cycles[i].now, EvalAt(map[], cycles[..i]), s, b, b', cfg);
  }

  lemma TopHasLimit(s: nat, b: nat, b': nat, limit: nat)
    requires s <= b <= b' && s + (b' - b) == limit
    ensures |Range(0, s) + Range(b, b')| == limit
  {
    assert Range(0, s) * Range(b, b') == {};
    RangeSize(0, s);
    RangeSize(b, b');
  }

  lemma TopOutscores(total: nat, now: real, evalAt: map<Address, real>, s: nat, b: nat, b': nat, cfg: Config)
    requires Stamped(evalAt, s, b, now, cfg.interval) && s <= b <= b' < total
    ensures Outscores(Candidates(Tokens(0, total, now - cfg.maxAge), evalAt, now, cfg), Range(0, s) + Range(b, b'))
  {
    var cs, top := Candidates(Tokens(0, total, now - cfg.maxAge), evalAt, now, cfg), Range(0, s) + Range(b, b');
    forall c, d | c in cs && d in cs && c.addr in top && d.addr !in top ensures c.score > d.score {
      ScoresFall(0, total, now, evalAt, s, b, cfg, c);
      ScoresFall(0, total, now, evalAt, s, b, cfg, d);
      CandidateIsUnstamped(total, now, evalAt, s, b, cfg, d);
    }
  }

  lemma CandidateIsUnstamped(total: nat, now: real, evalAt: map<Address, real>, s: nat, b: nat, cfg: Config, d: Scored)
    requires Stamped(evalAt, s, b, now, cfg.interval)
    requires d in Candidates(Tokens(0, total, now - cfg.maxAge), evalAt, now, cfg)
    ensures 0 <= d.addr < total && !(s <= d.addr < b)
  {
    var tokens := Tokens(0, total, now - cfg.maxAge);
    UnstampedAreEligible(0, total, now, evalAt, s, b, cfg);
    CandidatesAreEligible(tokens, evalAt, now, cfg);
    AddrSetMembers(Candidates(tokens, evalAt, now, cfg), d.addr);
    assert d.addr in Range(0, total) - Range(s, b);
  }

  /** One token more than the bound, and the run may pass one over: `missed` tokens keep the first places for ever, all
      places if there are no others, the next ones take their turns, and the last one is due in every cycle and never
      chosen; whatever the number of cycles, the limit and the times. */
  lemma OneMoreIsPassedOver(cfg: Config, missed: nat, at: nat -> real, from: real, k: nat)
    returns (cycles: seq<Cycle>, everyone: set<Address>, a: Address)
    requires k > 0 && cfg.interval > 0.0 && InsideInterval(at, from, cfg.interval)
    ensures |cycles| == k && forall i: nat :: i < k ==> cycles[i].now == at(i)
    ensures Rotates(map[], cycles, cfg, from, everyone, missed) && |everyone| == Reach(cfg, k, missed) + 1
    ensures PassedOver(map[], cycles, cfg, a)
  {
    var total := Block(cfg, missed, k) + 1;
    cycles := seq(k, i requires 0 <= i < k => WorstCycle(cfg, missed, total, i, at(i)));
    everyone, a := Range(0, total), total - 1;
    TimesIsProduct(k - 1, Progress(cfg, missed));
    RangeSize(0, total);
    BlocksFollow(cfg, missed, k, k);
    forall i: nat | i < k
      ensures CycleOk(map[], cycles, i, cfg, from, everyone, missed)
      ensures a in EligibleAt(map[], cycles, i, cfg) && a !in ChosenAt(map[], cycles, i, cfg)
    {
      WorstCycleOk(cycles, cfg, missed, total, at, from, i);
    }
  }

  lemma WorstCycleOk(cycles: seq<Cycle>, cfg: Config, missed: nat, total: nat, at: nat -> real, from: real, i: nat)
    requires IsWorst(cycles, cfg, missed, total, at) && i < |cycles| && total == Block(cfg, missed, |cycles|) + 1
    requires InsideInterval(at, from, cfg.interval)
    ensures CycleOk(map[], cycles, i, cfg, from, Range(0, total), missed)
    ensures total - 1 in EligibleAt(map[], cycles, i, cfg) && total - 1 !in ChosenAt(map[], cycles, i, cfg)
  {
    var s, b, b' := Stuck(cfg, missed), Block(cfg, missed, i), Block(cfg, missed, i + 1);
    WorstStart(cycles, cfg, missed, total, at, from, i);
    BlockSizes(cfg, missed, i, |cycles|);
    ChoiceIn(cycles, i, cfg, total, s, b, b');
    DistinctIn(cycles[i].tokens, total, cycles[i].now - cfg.maxAge);
    LastIsPassedOver(cycles, i, cfg, from, missed, total, s, b, b');
  }

  lemma LastIsPassedOver(cycles: seq<Cycle>, i: nat, cfg: Config, from: real, missed: nat, total: nat, s: nat, b: nat, b': nat)
    requires i < |cycles| && from <= cycles[i].now < from + cfg.interval && Distinct(cycles[i].tokens)
    requires cycles[i].stamps == StampAll(Range(b, b'), cycles[i].now)
    requires EligibleAt(map[], cycles, i, cfg) == Range(0, total) - Range(s, b)
    requires ChosenAt(map[], cycles, i, cfg) == Range(0, s) + Range(b, b')
    requires s <= missed && s <= b <= b' < total
    ensures CycleOk(map[], cycles, i, cfg, from, Range(0, total), missed)
    ensures total - 1 in EligibleAt(map[], cycles, i, cfg) && total - 1 !in ChosenAt(map[], cycles, i, cfg)
  {
    OnlyStuckUnstamped(s, b, b', cycles[i].now);
  }

  lemma OnlyStuckUnstamped(s: nat, b: nat, b': nat, now: real)
    ensures |Range(0, s) + Range(b, b') - StampAll(Range(b, b'), now).Keys| <= s
  {
    RangeSize(0, s);
    SubsetNotLarger(Range(0, s) + Range(b, b') - StampAll(Range(b, b'), now).Keys, Range(0, s));
  }

  /** In K cycles every due token is reached, whatever the registry, the scores and the evaluations. */
  ghost predicate AllReached(cfg: Config, from: real, k: nat, missed: nat, n: nat) {
    forall first, cycles, everyone, a ::
      Rotates(first, cycles, cfg, from, everyone, missed) && |cycles| == k && |everyone| <= n
      && DueThroughout(first, cycles, cfg, a)
      ==> ChosenOnce(first, cycles, cfg, a)
  }

  /** The bound is exact: among up to n eligible tokens K cycles are sure to reach every due one if and only if n is at most
      (K - 1) * (limit - missed) + limit.  So a rotation in which nothing gets a stamp still reaches everybody as long as
      all fit into one cycle, and beyond that it may starve a token for ever. */
  lemma RotationReachesAllIff(cfg: Config, from: real, k: nat, missed: nat, n: nat)
    requires k > 0 && cfg.interval > 0.0
    ensures AllReached(cfg, from, k, missed, n) <==> n <= Reach(cfg, k, missed)
  {
    if n <= Reach(cfg, k, missed) {
      forall first, cycles, everyone, a |
        Rotates(first, cycles, cfg, from, everyone, missed) && |cycles| == k && |everyone| <= n
        && DueThroughout(first, cycles, cfg, a)
        ensures ChosenOnce(first, cycles, cfg, a)
      {
        EveryDueTokenIsChosen(first, cycles, cfg, from, everyone, missed, a);
      }
    } else {
      var cycles, everyone, a := OneMoreIsPassedOver(cfg, missed, (i: nat) => from, from, k);
      PassedOverIsStarved(map[], cycles, cfg, a);
    }
  }

  lemma PassedOverIsStarved(first: map<Address, real>, cycles: seq<Cycle>, cfg: Config, a: Address)
    requires PassedOver(first, cycles, cfg, a)
    ensures DueThroughout(first, cycles, cfg, a) && !ChosenOnce(first, cycles, cfg, a)
  {
  }
}
