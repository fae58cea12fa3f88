/** Which tokens a cloud-worker cycle evaluates. */
module Ranking {
  // rank_candidates (backend/app/discovery/ranking.py) ranks them by the evaluation times that the worker keeps between
  // cycles (backend/runner/cloud_worker.py); evaluate_global_candidates (backend/runner/runtime.py) throttles the evaluation
  // and writes those times.  Times are in seconds.

  import opened BestFirst
  import opened Common

  datatype Config = Config(minLiquidity: real, minMarketCap: real, maxAge: real, interval: real, maxPerCycle: int)

  /** seen is the latest of the three timestamps of the token; base is the balance score of its last snapshot (20 without
      one). */
  datatype Token = Token(addr: Address, dead: bool, seen: Option<real>, liquidity: Option<real>, marketCap: Option<real>,
                         base: real)

  // ---------------------------------------------------------------- eligibility and score

  predicate Expired(t: Token, now: real, maxAge: real) { t.seen.None? || now - t.seen.value > maxAge }

  predicate Below(x: Option<real>, floor: real) { x.Some? && x.value < floor }

  predicate Recent(evalAt: map<Address, real>, a: Address, now: real, interval: real) {
    a in evalAt && now - evalAt[a] < interval
  }

  predicate Eligible(t: Token, evalAt: map<Address, real>, now: real, cfg: Config) {
    && !t.dead && !Expired(t, now, cfg.maxAge)
    && !Below(t.liquidity, cfg.minLiquidity) && !Below(t.marketCap, cfg.minMarketCap)
    && !Recent(evalAt, t.addr, now, cfg.interval)
  }

  /** Scoring a token that was evaluated before divides by the interval. */
  predicate DivisionFails(t: Token, evalAt: map<Address, real>, cfg: Config) { t.addr in evalAt && cfg.interval == 0.0 }

  function Score(t: Token, evalAt: map<Address, real>, now: real, cfg: Config): real {
    if t.addr !in evalAt || DivisionFails(t, evalAt, cfg) then t.base + 30.0
    else
      var bonus := (now - evalAt[t.addr]) / cfg.interval * 5.0;
      t.base + if bonus < 30.0 then bonus else 30.0
  }

  function Candidates(tokens: seq<Token>, evalAt: map<Address, real>, now: real, cfg: Config): seq<Scored> {
    if tokens == [] then []
    else
      var rest := Candidates(tokens[1..], evalAt, now, cfg);
      if Eligible(tokens[0], evalAt, now, cfg) then [Scored(Score(tokens[0], evalAt, now, cfg), tokens[0].addr)] + rest
      else rest
  }

  function Limit(cfg: Config): nat { if cfg.maxPerCycle < 1 then 1 else cfg.maxPerCycle }

  function Ranked(tokens: seq<Token>, evalAt: map<Address, real>, now: real, cfg: Config): seq<Scored> {
    Best(Candidates(tokens, evalAt, now, cfg))
  }

  /** None: the call fails, because the interval is zero and an eligible token was evaluated before. */
  method RankCandidates(tokens: seq<Token>, evalAt: map<Address, real>, now: real, cfg: Config)
    returns (selected: Option<seq<Address>>)
    ensures selected.None? <==> exists t :: t in tokens && Eligible(t, evalAt, now, cfg) && DivisionFails(t, evalAt, cfg)
    ensures selected.Some? ==> selected.value == Addresses(Take(Ranked(tokens, evalAt, now, cfg), Limit(cfg)))
  {
    var ranked: seq<Scored> := [];
    var i := 0;
    while i < |tokens|
      invariant 0 <= i <= |tokens|
      invariant ranked + Candidates(tokens[i..], evalAt, now, cfg) == Candidates(tokens, evalAt, now, cfg)
      invariant forall t :: t in tokens[..i] ==> !(Eligible(t, evalAt, now, cfg) && DivisionFails(t, evalAt, cfg))
    {
      var t := tokens[i];
      assert tokens[i..][1..] == tokens[i + 1..] && tokens[..i + 1] == tokens[..i] + [t];
      i := i + 1;
      if t.dead { continue; }
      if Expired(t, now, cfg.maxAge) { continue; }
      if Below(t.liquidity, cfg.minLiquidity) { continue; }
      if Below(t.marketCap, cfg.minMarketCap) { continue; }
      if Recent(evalAt, t.addr, now, cfg.interval) { continue; }
      if DivisionFails(t, evalAt, cfg) { return None; }
      ranked := ranked + [Scored(Score(t, evalAt, now, cfg), t.addr)];
    }
    assert tokens[i..] == [] && ranked + [] == ranked && tokens[..i] == tokens;
    selected := Some(Addresses(Take(Best(ranked), Limit(cfg))));
  }

  // ---------------------------------------------------------------- the selection is the best of the eligible

  /** Whatever is left out ranks behind everything that is selected. */
  lemma LeftOutRanksBehind(tokens: seq<Token>, evalAt: map<Address, real>, now: real, cfg: Config, c: Scored, d: Scored)
    requires c in Take(Ranked(tokens, evalAt, now, cfg), Limit(cfg))
    requires d in Candidates(tokens, evalAt, now, cfg) && d !in Take(Ranked(tokens, evalAt, now, cfg), Limit(cfg))
    ensures Before(c, d)
  {
    CutOffRanksBehind(Candidates(tokens, evalAt, now, cfg), Limit(cfg), c, d);
  }

  // ---------------------------------------------------------------- how many are selected

  function TokenAddrs(tokens: seq<Token>): set<Address> {
    if tokens == [] then {} else {tokens[0].addr} + TokenAddrs(tokens[1..])
  }

  function EligibleAddrs(tokens: seq<Token>, evalAt: map<Address, real>, now: real, cfg: Config): set<Address> {
    if tokens == [] then {}
    else if Eligible(tokens[0], evalAt, now, cfg) then {tokens[0].addr} + EligibleAddrs(tokens[1..], evalAt, now, cfg)
    else EligibleAddrs(tokens[1..], evalAt, now, cfg)
  }

  /** No address is listed twice. */
  predicate Distinct(tokens: seq<Token>) { |TokenAddrs(tokens)| == |tokens| }

  function Chosen(tokens: seq<Token>, evalAt: map<Address, real>, now: real, cfg: Config): set<Address> {
    AddrSet(Take(Ranked(tokens, evalAt, now, cfg), Limit(cfg)))
  }

  lemma {:induction false} TokenAddrsSmall(tokens: seq<Token>)
    ensures |TokenAddrs(tokens)| <= |tokens|
  {
    if tokens != [] {
      TokenAddrsSmall(tokens[1..]);
      UnionSmall({tokens[0].addr}, TokenAddrs(tokens[1..]));
    }
  }

  lemma {:induction false} EligibleAreTokens(tokens: seq<Token>, evalAt: map<Address, real>, now: real, cfg: Config)
    ensures EligibleAddrs(tokens, evalAt, now, cfg) <= TokenAddrs(tokens)
  {
    if tokens != [] { EligibleAreTokens(tokens[1..], evalAt, now, cfg); }
  }

  lemma DistinctTail(tokens: seq<Token>)
    requires Distinct(tokens) && tokens != []
    ensures Distinct(tokens[1..]) && tokens[0].addr !in TokenAddrs(tokens[1..])
  {
    TokenAddrsSmall(tokens[1..]);
    UnionSmall({tokens[0].addr}, TokenAddrs(tokens[1..]));
    if tokens[0].addr in TokenAddrs(tokens[1..]) { Absorb(tokens[0].addr, TokenAddrs(tokens[1..])); }
  }

  lemma Absorb(a: Address, addrs: set<Address>)
    requires a in addrs
    ensures {a} + addrs == addrs
  {
  }

  lemma {:induction false} CandidatesAreEligible(tokens: seq<Token>, evalAt: map<Address, real>, now: real, cfg: Config)
    ensures AddrSet(Candidates(tokens, evalAt, now, cfg)) == EligibleAddrs(tokens, evalAt, now, cfg)
    ensures Distinct(tokens) ==> |Candidates(tokens, evalAt, now, cfg)| == |EligibleAddrs(tokens, evalAt, now, cfg)|
  {
    if tokens != [] {
      CandidatesAreEligible(tokens[1..], evalAt, now, cfg);
      EligibleAreTokens(tokens[1..], evalAt, now, cfg);
      if Distinct(tokens) { DistinctTail(tokens); }
      if Eligible(tokens[0], evalAt, now, cfg) {
        var rest := Candidates(tokens[1..], evalAt, now, cfg);
        var c := Scored(Score(tokens[0], evalAt, now, cfg), tokens[0].addr);
        assert ([c] + rest)[1..] == rest;
      }
    }
  }

  /** Only eligible tokens are chosen, and as many of them as there are or as the limit allows. */
  lemma ChosenFillsTheCycle(tokens: seq<Token>, evalAt: map<Address, real>, now: real, cfg: Config)
    requires Distinct(tokens)
    ensures var eligible, chosen := EligibleAddrs(tokens, evalAt, now, cfg), Chosen(tokens, evalAt, now, cfg);
            chosen <= eligible && |chosen| == if |eligible| <= Limit(cfg) then |eligible| else Limit(cfg)
  {
    var cs, ranked := Candidates(tokens, evalAt, now, cfg), Ranked(tokens, evalAt, now, cfg);
    BestIsOrdered(cs);
    SameAddrSet(ranked, cs);
    CandidatesAreEligible(tokens, evalAt, now, cfg);
    TakeDiffers(ranked, Limit(cfg));
    if |ranked| > Limit(cfg) {
      assert ranked == ranked[..Limit(cfg)] + ranked[Limit(cfg)..];
      AddrSetJoin(ranked[..Limit(cfg)], ranked[Limit(cfg)..]);
    }
  }

  // ---------------------------------------------------------------- the selection in terms of the tokens

  lemma {:induction false} EligibleTokenOf(tokens: seq<Token>, evalAt: map<Address, real>, now: real, cfg: Config, a: Address)
    returns (t: Token)
    requires a in EligibleAddrs(tokens, evalAt, now, cfg)
    ensures t in tokens && t.addr == a && Eligible(t, evalAt, now, cfg)
  {
    if Eligible(tokens[0], evalAt, now, cfg) && tokens[0].addr == a {
      t := tokens[0];
    } else {
      t := EligibleTokenOf(tokens[1..], evalAt, now, cfg, a);
    }
  }

  lemma {:induction false} EligibleTokenIsIn(tokens: seq<Token>, evalAt: map<Address, real>, now: real, cfg: Config, t: Token)
    requires t in tokens && Eligible(t, evalAt, now, cfg)
    ensures t.addr in EligibleAddrs(tokens, evalAt, now, cfg)
    ensures Scored(Score(t, evalAt, now, cfg), t.addr) in Candidates(tokens, evalAt, now, cfg)
  {
    if t != tokens[0] { EligibleTokenIsIn(tokens[1..], evalAt, now, cfg, t); }
  }

  /** A selected address is that of a living token that was seen within the retention time, whose liquidity and market cap,
      where they are known, reach their floors, and that was not evaluated within the interval. */
  lemma SelectedAreSound(tokens: seq<Token>, evalAt: map<Address, real>, now: real, cfg: Config, a: Address) returns (t: Token)
    requires a in Addresses(Take(Ranked(tokens, evalAt, now, cfg), Limit(cfg)))
    ensures t in tokens && t.addr == a && !t.dead && t.seen.Some? && now - t.seen.value <= cfg.maxAge
    ensures t.liquidity.Some? ==> t.liquidity.value >= cfg.minLiquidity
    ensures t.marketCap.Some? ==> t.marketCap.value >= cfg.minMarketCap
    ensures a in evalAt ==> now - evalAt[a] >= cfg.interval
  {
    var kept := Take(Ranked(tokens, evalAt, now, cfg), Limit(cfg));
    AddressesAsSet(kept);
    AddrSetMembers(kept, a);
    var c :| c in kept && c.addr == a;
    BestIsOrdered(Candidates(tokens, evalAt, now, cfg));
    assert c in multiset(Ranked(tokens, evalAt, now, cfg));
    AddrSetMembers(Candidates(tokens, evalAt, now, cfg), a);
    CandidatesAreEligible(tokens, evalAt, now, cfg);
    t := EligibleTokenOf(tokens, evalAt, now, cfg, a);
  }

  /** A token that meets all of this is left out only if as many others were taken as a cycle allows. */
  lemma SelectedAreComplete(tokens: seq<Token>, evalAt: map<Address, real>, now: real, cfg: Config, t: Token)
    requires t in tokens && !t.dead && t.seen.Some? && now - t.seen.value <= cfg.maxAge
    requires t.liquidity.Some? ==> t.liquidity.value >= cfg.minLiquidity
    requires t.marketCap.Some? ==> t.marketCap.value >= cfg.minMarketCap
    requires t.addr in evalAt ==> now - evalAt[t.addr] >= cfg.interval
    ensures var selected := Addresses(Take(Ranked(tokens, evalAt, now, cfg), Limit(cfg)));
            t.addr in selected || |selected| == if cfg.maxPerCycle < 1 then 1 else cfg.maxPerCycle
  {
    var ranked := Ranked(tokens, evalAt, now, cfg);
    EligibleTokenIsIn(tokens, evalAt, now, cfg, t);
    BestIsOrdered(Candidates(tokens, evalAt, now, cfg));
    AddressesLength(Take(ranked, Limit(cfg)));
    if |ranked| <= Limit(cfg) {
      assert Scored(Score(t, evalAt, now, cfg), t.addr) in multiset(ranked);
      AddressesAsSet(ranked);
      AddrSetMembers(ranked, t.addr);
    }
  }

  /** The order: if u is selected, and t, which is eligible too, comes behind it or is left out, then ... */
  ghost predicate Passed(tokens: seq<Token>, evalAt: map<Address, real>, now: real, cfg: Config, u: Token, t: Token) {
    && Distinct(tokens) && u in tokens && t in tokens && Eligible(u, evalAt, now, cfg) && Eligible(t, evalAt, now, cfg)
    && exists p :: 0 <= p < |Take(Ranked(tokens, evalAt, now, cfg), Limit(cfg))|
                   && Take(Ranked(tokens, evalAt, now, cfg), Limit(cfg))[p].addr == u.addr
                   && forall q :: 0 <= q < p ==> Take(Ranked(tokens, evalAt, now, cfg), Limit(cfg))[q].addr != t.addr
  }

  lemma PassedScoresNoLess(tokens: seq<Token>, evalAt: map<Address, real>, now: real, cfg: Config, u: Token, t: Token)
    requires Passed(tokens, evalAt, now, cfg, u, t) && u.addr != t.addr
    ensures Score(u, evalAt, now, cfg) > Score(t, evalAt, now, cfg)
         || (Score(u, evalAt, now, cfg) == Score(t, evalAt, now, cfg) && u.addr < t.addr)
  {
    var ranked := Ranked(tokens, evalAt, now, cfg);
    var p :| 0 <= p < |Take(ranked, Limit(cfg))| && Take(ranked, Limit(cfg))[p].addr == u.addr
             && forall q :: 0 <= q < p ==> Take(ranked, Limit(cfg))[q].addr != t.addr;
    EntryOf(tokens, evalAt, now, cfg, u);
    EntryOf(tokens, evalAt, now, cfg, t);
    OneEntryEach(tokens, evalAt, now, cfg);
    BestIsOrdered(Candidates(tokens, evalAt, now, cfg));
    var entry := (x: Token) => Scored(Score(x, evalAt, now, cfg), x.addr);
    EarlierIsBefore(ranked, Limit(cfg), p, entry(u), entry(t));
  }

  lemma EntryOf(tokens: seq<Token>, evalAt: map<Address, real>, now: real, cfg: Config, t: Token)
    requires t in tokens && Eligible(t, evalAt, now, cfg)
    ensures Scored(Score(t, evalAt, now, cfg), t.addr) in Ranked(tokens, evalAt, now, cfg)
  {
    EligibleTokenIsIn(tokens, evalAt, now, cfg, t);
    BestIsOrdered(Candidates(tokens, evalAt, now, cfg));
    assert Scored(Score(t, evalAt, now, cfg), t.addr) in multiset(Candidates(tokens, evalAt, now, cfg));
    assert Scored(Score(t, evalAt, now, cfg), t.addr) in multiset(Ranked(tokens, evalAt, now, cfg));
  }

  lemma EarlierIsBefore(ranked: seq<Scored>, n: nat, p: nat, a: Scored, b: Scored)
    requires InOrder(ranked) && AllDifferent(ranked) && a in ranked && b in ranked && a.addr != b.addr
    requires p < |Take(ranked, n)| && Take(ranked, n)[p].addr == a.addr
    requires forall q :: 0 <= q < p ==> Take(ranked, n)[q].addr != b.addr
    ensures Before(a, b)
  {
    assert forall q :: 0 <= q <= p ==> Take(ranked, n)[q] == ranked[q];
    SameAddressSameEntry(ranked, ranked[p], a);
    var j :| 0 <= j < |ranked| && ranked[j] == b;
    assert j > p;
  }

  lemma OneEntryEach(tokens: seq<Token>, evalAt: map<Address, real>, now: real, cfg: Config)
    requires Distinct(tokens)
    ensures AllDifferent(Ranked(tokens, evalAt, now, cfg))
  {
    CandidatesAreEligible(tokens, evalAt, now, cfg);
    BestIsOrdered(Candidates(tokens, evalAt, now, cfg));
    SameAddrSet(Ranked(tokens, evalAt, now, cfg), Candidates(tokens, evalAt, now, cfg));
  }

  lemma SameAddressSameEntry(cs: seq<Scored>, a: Scored, b: Scored)
    requires AllDifferent(cs) && a in cs && b in cs && a.addr == b.addr
    ensures a == b
  {
    var i :| 0 <= i < |cs| && cs[i] == a;
    var j :| 0 <= j < |cs| && cs[j] == b;
    if i < j { EarlierDiffers(cs, i, j); }
    if j < i { EarlierDiffers(cs, j, i); }
  }

  lemma EarlierDiffers(cs: seq<Scored>, i: nat, j: nat)
    requires AllDifferent(cs) && i < j < |cs|
    ensures cs[i].addr != cs[j].addr
  {
    NextIsNew(cs, j);
    AddrSetMembers(cs[..j], cs[i].addr);
    assert cs[i] == cs[..j][i];
  }

  /** ... with equal balance scores it has waited for its turn at least as long, where never counts longest; or, if it has
      not, both have waited for six intervals, beyond which waiting counts no more, and the address decides. */
  lemma LongerWaitIsNotPassed(tokens: seq<Token>, evalAt: map<Address, real>, now: real, cfg: Config, u: Token, t: Token)
    requires Passed(tokens, evalAt, now, cfg, u, t) && u.addr != t.addr && u.base == t.base && cfg.interval > 0.0
    ensures u.addr in evalAt && t.addr !in evalAt
            ==> now - evalAt[u.addr] >= 6.0 * cfg.interval && u.addr < t.addr
    ensures u.addr in evalAt && t.addr in evalAt && evalAt[t.addr] < evalAt[u.addr]
            ==> now - evalAt[u.addr] >= 6.0 * cfg.interval && u.addr < t.addr
  {
    PassedScoresNoLess(tokens, evalAt, now, cfg, u, t);
    if u.addr in evalAt {
      Ratio(now - evalAt[u.addr], cfg.interval, 6.0);
      if t.addr in evalAt { RatioGrows(now - evalAt[u.addr], now - evalAt[t.addr], cfg.interval); }
    }
  }

  /** ... and with equal waits it has no lower balance score. */
  lemma BetterBaseIsNotPassed(tokens: seq<Token>, evalAt: map<Address, real>, now: real, cfg: Config, u: Token, t: Token)
    requires Passed(tokens, evalAt, now, cfg, u, t) && u.addr != t.addr && cfg.interval > 0.0
    requires if u.addr in evalAt then t.addr in evalAt && evalAt[t.addr] == evalAt[u.addr] else t.addr !in evalAt
    ensures u.base > t.base || (u.base == t.base && u.addr < t.addr)
  {
    PassedScoresNoLess(tokens, evalAt, now, cfg, u, t);
  }

  lemma Ratio(x: real, y: real, r: real)
    requires y > 0.0
    ensures x / y >= r <==> x >= r * y
  {
    var q := x / y;
    assert q * y == x;
    Compare(q, r, y);
  }

  lemma Compare(q: real, r: real, y: real)
    requires y > 0.0
    ensures q >= r <==> q * y >= r * y
  {
    assert (q - r) * y == q * y - r * y;
    if q >= r { assert (q - r) * y >= 0.0; } else { assert (r - q) * y > 0.0; }
  }

  lemma RatioGrows(a: real, b: real, y: real)
    requires y > 0.0
    ensures a < b ==> a / y < b / y
  {
    var p, q := a / y, b / y;
    assert p * y == a && q * y == b;
    Compare(p, q, y);
  }

  // ---------------------------------------------------------------- the evaluation loop

  /** A token that the evaluation loop evaluates when it comes to it. */
  predicate Evaluable(a: Address, evaluated: map<Address, real>, now: real, minInterval: real, open: set<Address>,
                      data: set<Address>)
  {
    a !in open && a in data && !Recent(evaluated, a, now, minInterval)
  }

  /** The stamps are those of the tokens among the first ones of the list that could be evaluated, all of this moment. */
  ghost predicate Stamps(stamps: map<Address, real>, front: seq<Address>, evaluated: map<Address, real>, now: real,
                         minInterval: real, open: set<Address>, data: set<Address>)
  {
    && (forall a :: a in stamps <==> a in front && Evaluable(a, evaluated, now, minInterval, open, data))
    && (forall a :: a in stamps ==> stamps[a] == now)
  }

  /** The throttle of evaluate_global_candidates: which of the tokens it is given get a stamp.  open holds the tokens with
      an open position, data those a provider knows, budget how many tokens fit before the deadline.  The loop looks at the
      first `cut` of them: all, unless the deadline or the cap comes first. */
  method EvaluateCandidates(addrs: seq<Address>, evaluated: map<Address, real>, now: real, minInterval: real, maxN: int,
                            open: set<Address>, data: set<Address>, budget: nat)
    returns (stamps: map<Address, real>, n: nat, cut: nat)
    ensures cut <= |addrs| && cut <= budget && (cut == |addrs| || cut == budget || n >= maxN)
    ensures Stamps(stamps, addrs[..cut], evaluated, now, minInterval, open, data)
    ensures forall a :: a in stamps
              ==> a in addrs && a !in open && a in data && (a in evaluated ==> now - evaluated[a] >= minInterval)
    ensures forall a :: a in addrs[..cut] && a !in open && a in data && (a in evaluated ==> now - evaluated[a] >= minInterval)
              ==> a in stamps
    ensures n >= |stamps| && (minInterval > 0.0 ==> n == |stamps|) && (n <= maxN || n == 0)
  {
    stamps, n := map[], 0;
    var i := 0;
    while i < |addrs| && n < maxN && i < budget
      invariant 0 <= i <= |addrs| && i <= budget && (n <= maxN || n == 0)
      invariant n >= |stamps| && (minInterval > 0.0 ==> n == |stamps|)
      invariant Stamps(stamps, addrs[..i], evaluated, now, minInterval, open, data)
    {
      var a := addrs[i];
      NextStamp(stamps, addrs, i, evaluated, now, minInterval, open, data);
      i := i + 1;
      if a in open { continue; }
      if Recent(evaluated + stamps, a, now, minInterval) { continue; }
      if a !in data { continue; }
      stamps := stamps[a := now];
      n := n + 1;
    }
    cut := i;
  }

  /** What the body of the loop does to the stamps. */
  lemma NextStamp(stamps: map<Address, real>, addrs: seq<Address>, i: nat, evaluated: map<Address, real>, now: real,
                  minInterval: real, open: set<Address>, data: set<Address>)
    requires i < |addrs| && Stamps(stamps, addrs[..i], evaluated, now, minInterval, open, data)
    ensures var a := addrs[i];
            var skipped := a in open || a !in data || Recent(evaluated + stamps, a, now, minInterval);
            && Stamps(if skipped then stamps else stamps[a := now], addrs[..i + 1], evaluated, now, minInterval, open, data)
            && (|stamps[a := now]| == |stamps| + 1 || (a in stamps && |stamps[a := now]| == |stamps|))
            && (!skipped && minInterval > 0.0 ==> a !in stamps)
  {
    assert addrs[..i + 1] == addrs[..i] + [addrs[i]];
    StampCount(stamps, addrs[i], now);
  }

  lemma StampCount(stamps: map<Address, real>, a: Address, now: real)
    ensures |stamps[a := now]| == |stamps| + if a in stamps then 0 else 1
  {
    assert stamps[a := now].Keys == stamps.Keys + {a};
    assert |stamps[a := now].Keys| == |stamps[a := now]| && |stamps.Keys| == |stamps|;
  }
}
