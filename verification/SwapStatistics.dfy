/** What the statistics of a window (backend/app/domain/windows.py) say about the swaps of the pool. */
module SwapStatistics {
  import opened Common
  import opened Windows

  // ---------------------------------------------------------------- counts, volumes and traders

  /** The swap lies in the window that begins at start. */
  predicate Inside(s: Swap, start: int) { s.ts.Some? && s.ts.value >= start }

  /** The swap takes the target token out of the pool. */
  predicate TakesTarget(s: Swap, targetIsBase: bool) { s.baseOut == targetIsBase }

  function Of(swaps: seq<Swap>, targetIsBase: bool, start: int): Stats { Truth(ListedAll(swaps), targetIsBase, start) }

  lemma NothingOfNothing(targetIsBase: bool, start: int)
    ensures Of([], targetIsBase, start) == Stats(0, 0, 0, 0, 0.0, 0.0, None)
  {
  }

  /** What one swap more contributes, wherever it stands in the list: to the side it is on one trade and its dollars, to the
      other side nothing; and before the window, or without a readable time, nothing at all. */
  lemma OneMoreSwap(a: seq<Swap>, s: Swap, b: seq<Swap>, targetIsBase: bool, start: int)
    ensures var without, with := Of(a + b, targetIsBase, start), Of(a + [s] + b, targetIsBase, start);
            if !Inside(s, start) then Counts(with) == Counts(without)
            else if TakesTarget(s, targetIsBase) then
              && with.buys == without.buys + 1 && with.buyVolume == without.buyVolume + s.usd
              && with.sells == without.sells && with.sellVolume == without.sellVolume && with.sellers == without.sellers
            else
              && with.sells == without.sells + 1 && with.sellVolume == without.sellVolume + s.usd
              && with.buys == without.buys && with.buyVolume == without.buyVolume && with.buyers == without.buyers
  {
    OneMoreOnSide(a, s, b, targetIsBase, start, Buy);
    OneMoreOnSide(a, s, b, targetIsBase, start, Sell);
    var takes := TakesTarget(s, targetIsBase);
    if !Inside(s, start) || !takes { TradersStay(a, s, b, targetIsBase, start, true); }
    if !Inside(s, start) || takes { TradersStay(a, s, b, targetIsBase, start, false); }
  }

  lemma TradersStay(a: seq<Swap>, s: Swap, b: seq<Swap>, targetIsBase: bool, start: int, takes: bool)
    requires !(Inside(s, start) && TakesTarget(s, targetIsBase) == takes)
    ensures var without, with := Of(a + b, targetIsBase, start), Of(a + [s] + b, targetIsBase, start);
            if takes then with.buyers == without.buyers else with.sellers == without.sellers
  {
    TradersAreThose(a + b, targetIsBase, start);
    TradersAreThose(a + [s] + b, targetIsBase, start);
    assert TradersOf(a + [s] + b, targetIsBase, start, takes) == TradersOf(a + b, targetIsBase, start, takes);
  }

  /** The known traders of the swaps in the window that take the target out, or put it in. */
  function TradersOf(swaps: seq<Swap>, targetIsBase: bool, start: int, takes: bool): set<string> {
    set s | s in swaps && Inside(s, start) && TakesTarget(s, targetIsBase) == takes && s.trader != "" :: s.trader
  }

  /** Buyers are the traders who took the target out, sellers those who put it in, each counted once. */
  lemma TradersAreThose(swaps: seq<Swap>, targetIsBase: bool, start: int)
    ensures Of(swaps, targetIsBase, start).buyers == |TradersOf(swaps, targetIsBase, start, true)|
    ensures Of(swaps, targetIsBase, start).sellers == |TradersOf(swaps, targetIsBase, start, false)|
  {
    SameTraders(swaps, targetIsBase, start, Buy);
    SameTraders(swaps, targetIsBase, start, Sell);
  }

  /** The trades of one side of the window. */
  function OnOneSide(swaps: seq<Swap>, targetIsBase: bool, start: int, side: Side): seq<Trade> {
    OfSide(Since(ByTime(Parsed(ListedAll(swaps), targetIsBase)), start), side)
  }

  lemma SameTraders(swaps: seq<Swap>, targetIsBase: bool, start: int, side: Side)
    ensures Traders(OnOneSide(swaps, targetIsBase, start, side)) == TradersOf(swaps, targetIsBase, start, side == Buy)
  {
    var mine := Traders(OnOneSide(swaps, targetIsBase, start, side));
    var theirs := TradersOf(swaps, targetIsBase, start, side == Buy);
    forall name | name in mine ensures name in theirs {
      var t :| t in OnOneSide(swaps, targetIsBase, start, side) && t.trader != "" && t.trader == name;
      OnOneSideMembers(swaps, targetIsBase, start, side, t);
      var s := SwapBehind(swaps, targetIsBase, t);
    }
    forall name | name in theirs ensures name in mine {
      var s :| s in swaps && Inside(s, start) && TakesTarget(s, targetIsBase) == (side == Buy) && s.trader != ""
               && s.trader == name;
      var t := TradeOf(swaps, targetIsBase, s);
      OnOneSideMembers(swaps, targetIsBase, start, side, t);
    }
  }

  lemma OnOneSideMembers(swaps: seq<Swap>, targetIsBase: bool, start: int, side: Side, t: Trade)
    ensures t in OnOneSide(swaps, targetIsBase, start, side)
       <==> t in Parsed(ListedAll(swaps), targetIsBase) && t.ts >= start && t.side == side
  {
    var trades := Parsed(ListedAll(swaps), targetIsBase);
    ByTimeSorts(trades);
    assert t in multiset(ByTime(trades)) <==> t in multiset(trades);
    SinceHolds(ByTime(trades), start, t);
    OnSide(Since(ByTime(trades), start), side, t);
  }

  lemma SwapBehind(swaps: seq<Swap>, targetIsBase: bool, t: Trade) returns (s: Swap)
    requires t in Parsed(ListedAll(swaps), targetIsBase)
    ensures s in swaps && s.ts.Some? && Tells(t, s, targetIsBase)
  {
    ParsedTellsSwaps(swaps, targetIsBase);
    var i :| 0 <= i < |Parsed(ListedAll(swaps), targetIsBase)| && Parsed(ListedAll(swaps), targetIsBase)[i] == t;
    s := Readable(swaps)[i];
    ReadableMembers(swaps, s);
  }

  lemma TradeOf(swaps: seq<Swap>, targetIsBase: bool, s: Swap) returns (t: Trade)
    requires s in swaps && s.ts.Some?
    ensures t in Parsed(ListedAll(swaps), targetIsBase) && Tells(t, s, targetIsBase)
  {
    ParsedTellsSwaps(swaps, targetIsBase);
    ReadableMembers(swaps, s);
    var i :| 0 <= i < |Readable(swaps)| && Readable(swaps)[i] == s;
    t := Parsed(ListedAll(swaps), targetIsBase)[i];
  }

  lemma {:induction false} ReadableMembers(swaps: seq<Swap>, s: Swap)
    ensures s in Readable(swaps) <==> s in swaps && s.ts.Some?
  {
    if swaps != [] { ReadableMembers(swaps[1..], s); }
  }

  lemma OneMoreOnSide(a: seq<Swap>, s: Swap, b: seq<Swap>, targetIsBase: bool, start: int, side: Side)
    ensures var without := OnOneSide(a + b, targetIsBase, start, side);
            var with := OnOneSide(a + [s] + b, targetIsBase, start, side);
            var more := Inside(s, start) && TakesTarget(s, targetIsBase) == (side == Buy);
            && |with| == |without| + (if more then 1 else 0)
            && Volume(with) == Volume(without) + (if more then s.usd else 0.0)
  {
    var x, y := Parsed(ListedAll(a), targetIsBase), Parsed(ListedAll(b), targetIsBase);
    var z := Parsed(ListedAll([s]), targetIsBase);
    ListedJoin(a, b);
    ListedJoin(a, [s]);
    ListedJoin(a + [s], b);
    ParsedJoin(ListedAll(a), ListedAll(b), targetIsBase);
    ParsedJoin(ListedAll(a), ListedAll([s]), targetIsBase);
    ParsedJoin(ListedAll(a + [s]), ListedAll(b), targetIsBase);
    OneTrade(s, targetIsBase, start, side);
    SideTotals(x + y, start, side);
    SideTotals(x + z + y, start, side);
    SideJoin(x, y, start, side);
    SideJoin(x, z, start, side);
    SideJoin(x + z, y, start, side);
  }

  lemma OneTrade(s: Swap, targetIsBase: bool, start: int, side: Side)
    ensures var z := OfSide(Since(Parsed(ListedAll([s]), targetIsBase), start), side);
            if Inside(s, start) && TakesTarget(s, targetIsBase) == (side == Buy) then |z| == 1 && Volume(z) == s.usd
            else |z| == 0 && Volume(z) == 0.0
  {
    OneTellsSwap(s, targetIsBase);
    assert [s][1..] == [] && ListedAll([s]) == [Listed(s)] && [Listed(s)][1..] == [];
    if s.ts.Some? {
      var t := ParseRow(Listed(s), targetIsBase).value;
      assert Parsed(ListedAll([s]), targetIsBase) == [t] && [t][1..] == [];
    }
  }

  lemma {:induction false} ListedJoin(a: seq<Swap>, b: seq<Swap>)
    ensures ListedAll(a + b) == ListedAll(a) + ListedAll(b)
  {
    if a == [] {
      assert a + b == b;
    } else {
      assert (a + b)[1..] == a[1..] + b;
      ListedJoin(a[1..], b);
    }
  }

  /** One side's share of a list, in whatever order. */
  function Share(trades: seq<Trade>, start: int, side: Side): (int, real) {
    var mine := OfSide(Since(trades, start), side);
    (|mine|, Volume(mine))
  }

  lemma SideTotals(trades: seq<Trade>, start: int, side: Side)
    ensures Share(ByTime(trades), start, side) == Share(trades, start, side)
  {
    SinceByTime(trades, start);
    ByTimeKeepsSide(Since(trades, start), side);
  }

  lemma {:induction false} ByTimeKeepsSide(trades: seq<Trade>, side: Side)
    ensures |OfSide(ByTime(trades), side)| == |OfSide(trades, side)|
    ensures Volume(OfSide(ByTime(trades), side)) == Volume(OfSide(trades, side))
  {
    if trades != [] {
      ByTimeKeepsSide(trades[1..], side);
      InsertOnSide(trades[0], ByTime(trades[1..]), side);
      OfSideCons(trades[0], trades[1..], side);
      assert trades == [trades[0]] + trades[1..];
    }
  }

  lemma OfSideCons(t: Trade, trades: seq<Trade>, side: Side)
    ensures |OfSide([t] + trades, side)| == |OfSide(trades, side)| + (if t.side == side then 1 else 0)
    ensures Volume(OfSide([t] + trades, side)) == Volume(OfSide(trades, side)) + (if t.side == side then t.usd else 0.0)
  {
    assert ([t] + trades)[1..] == trades;
    assert ([t] + OfSide(trades, side))[1..] == OfSide(trades, side);
  }

  lemma {:induction false} InsertOnSide(t: Trade, sorted: seq<Trade>, side: Side)
    ensures |OfSide(Insert(t, sorted), side)| == |OfSide(sorted, side)| + (if t.side == side then 1 else 0)
    ensures Volume(OfSide(Insert(t, sorted), side)) == Volume(OfSide(sorted, side)) + (if t.side == side then t.usd else 0.0)
  {
    if sorted == [] || t.ts <= sorted[0].ts {
      OfSideCons(t, sorted, side);
    } else {
      InsertOnSide(t, sorted[1..], side);
      OfSideCons(sorted[0], Insert(t, sorted[1..]), side);
      OfSideCons(sorted[0], sorted[1..], side);
      assert sorted == [sorted[0]] + sorted[1..];
    }
  }

  lemma SideJoin(a: seq<Trade>, b: seq<Trade>, start: int, side: Side)
    ensures Share(a + b, start, side).0 == Share(a, start, side).0 + Share(b, start, side).0
    ensures Share(a + b, start, side).1 == Share(a, start, side).1 + Share(b, start, side).1
  {
    SinceJoin(a, b, start);
    OfSideJoin(Since(a, start), Since(b, start), side);
  }

  lemma {:induction false} OfSideJoin(a: seq<Trade>, b: seq<Trade>, side: Side)
    ensures |OfSide(a + b, side)| == |OfSide(a, side)| + |OfSide(b, side)|
    ensures Volume(OfSide(a + b, side)) == Volume(OfSide(a, side)) + Volume(OfSide(b, side))
  {
    if a == [] {
      assert a + b == b;
    } else {
      OfSideJoin(a[1..], b, side);
      OfSideCons(a[0], a[1..] + b, side);
      OfSideCons(a[0], a[1..], side);
      assert a == [a[0]] + a[1..] && a + b == [a[0]] + (a[1..] + b);
    }
  }

  // ---------------------------------------------------------------- the price change

  /** The newest trade with a price, of the first n. */
  predicate LastPriced(trades: seq<Trade>, n: nat, i: nat) {
    i < n <= |trades| && Present(trades[i].price) && forall j :: i < j < n ==> !Present(trades[j].price)
  }

  /** The oldest trade with a price, from the n-th on. */
  predicate FirstPriced(trades: seq<Trade>, n: nat, i: nat) {
    n <= i < |trades| && Present(trades[i].price) && forall j :: n <= j < i ==> !Present(trades[j].price)
  }

  /** The window begins with the n-th trade. */
  predicate BeginsAt(trades: seq<Trade>, start: int, n: nat) {
    && n <= |trades| && (forall j :: 0 <= j < n ==> trades[j].ts < start)
    && (forall j :: n <= j < |trades| ==> trades[j].ts >= start)
  }

  /** The trade whose price the change starts from: the last one priced before the window, or else the first one priced
      inside. */
  predicate ReferencePriced(trades: seq<Trade>, n: nat, r: nat) {
    if exists j :: 0 <= j < n <= |trades| && Present(trades[j].price) then LastPriced(trades, n, r)
    else FirstPriced(trades, n, r)
  }

  /** What the change is: it leads from the reference price to the newest one. */
  lemma ChangeLeadsToNewest(trades: seq<Trade>, start: int, n: nat, r: nat, i: nat)
    requires Sorted(trades) && BeginsAt(trades, start, n) && n < |trades|
    requires ReferencePriced(trades, n, r) && LastPriced(trades, |trades|, i)
    ensures var change := StatsOf(trades, start).change;
            change.Some? && trades[r].price.value * (1.0 + change.value / 100.0) == trades[i].price.value
  {
    ReferenceIs(trades, start, n, r);
    NewestIs(trades, i);
    SomeInside(trades, start, n);
    ChangeOf(trades, start, trades[r].price.value, trades[i].price.value);
  }

  lemma SomeInside(trades: seq<Trade>, start: int, n: nat)
    requires BeginsAt(trades, start, n) && n < |trades|
    ensures Since(trades, start) != []
  {
    WindowSplits(trades, start, n);
  }

  /** The price that the change starts from, as the program finds it. */
  function Reference(trades: seq<Trade>, start: int): Option<real> {
    if LastPrice(Until(trades, start)).Some? then LastPrice(Until(trades, start)) else FirstPrice(Since(trades, start))
  }

  lemma ReferenceIs(trades: seq<Trade>, start: int, n: nat, r: nat)
    requires BeginsAt(trades, start, n) && ReferencePriced(trades, n, r)
    ensures r < |trades| && Present(trades[r].price) && Reference(trades, start) == trades[r].price
  {
    WindowSplits(trades, start, n);
    if exists j :: 0 <= j < n <= |trades| && Present(trades[j].price) {
      LastPriceIs(trades, n, r);
    } else {
      NoLastPrice(trades[..n]);
      FirstPriceIs(trades[n..], r - n);
    }
  }

  lemma NewestIs(trades: seq<Trade>, i: nat)
    requires LastPriced(trades, |trades|, i)
    ensures LastPrice(trades) == trades[i].price
  {
    LastPriceIs(trades, |trades|, i);
    assert trades[..|trades|] == trades;
  }

  lemma ChangeOf(trades: seq<Trade>, start: int, p: real, q: real)
    requires Reference(trades, start) == Some(p) && p != 0.0 && LastPrice(trades) == Some(q) && Since(trades, start) != []
    ensures var change := StatsOf(trades, start).change; change.Some? && p * (1.0 + change.value / 100.0) == q
  {
    Leads(p, q, StatsOf(trades, start).change.value);
  }

  lemma Leads(p: real, q: real, change: real)
    requires p != 0.0 && change == (q / p - 1.0) * 100.0
    ensures p * (1.0 + change / 100.0) == q
  {
    assert change / 100.0 == q / p - 1.0;
    assert p * (q / p) == q;
  }

  /** There is one exactly if the window has a trade and the list a price. */
  lemma ChangeIsKnownIff(trades: seq<Trade>, start: int, n: nat)
    requires Sorted(trades) && BeginsAt(trades, start, n)
    ensures StatsOf(trades, start).change.Some? <==> n < |trades| && exists t :: t in trades && Present(t.price)
  {
    WindowSplits(trades, start, n);
    if t :| t in trades && Present(t.price) {
      SomePrice(trades, t);
      if t in trades[..n] { SomePrice(trades[..n], t); } else { SomeFirstPrice(trades[n..], t); }
      PricesArePresent(trades);
      PricesArePresent(trades[..n]);
      PricesArePresent(trades[n..]);
    } else {
      NoLastPrice(trades);
    }
  }

  lemma {:induction false} SomeFirstPrice(trades: seq<Trade>, t: Trade)
    requires t in trades && Present(t.price)
    ensures FirstPrice(trades).Some?
  {
    if !Present(trades[0].price) { SomeFirstPrice(trades[1..], t); }
  }

  lemma {:induction false} PricesArePresent(trades: seq<Trade>)
    ensures LastPrice(trades).Some? ==> Present(LastPrice(trades))
    ensures FirstPrice(trades).Some? ==> Present(FirstPrice(trades))
    decreases |trades|
  {
    if trades != [] {
      PricesArePresent(trades[1..]);
      PricesArePresent(trades[..|trades| - 1]);
    }
  }

  lemma WindowSplits(trades: seq<Trade>, start: int, n: nat)
    requires BeginsAt(trades, start, n)
    ensures Since(trades, start) == trades[n..] && Until(trades, start) == trades[..n]
  {
    assert trades == trades[..n] + trades[n..];
    SinceJoin(trades[..n], trades[n..], start);
    UntilJoin(trades[..n], trades[n..], start);
    NoneSince(trades[..n], start);
    NoneUntil(trades[n..], start);
    assert [] + trades[n..] == trades[n..] && trades[..n] + [] == trades[..n];
  }

  lemma {:induction false} LastPriceIs(trades: seq<Trade>, n: nat, i: nat)
    requires LastPriced(trades, n, i)
    ensures LastPrice(trades[..n]) == trades[i].price
    decreases n
  {
    assert trades[..n][|trades[..n]| - 1] == trades[n - 1] && trades[..n][..n - 1] == trades[..n - 1];
    if i < n - 1 { LastPriceIs(trades, n - 1, i); }
  }

  lemma {:induction false} NoLastPrice(trades: seq<Trade>)
    requires forall j :: 0 <= j < |trades| ==> !Present(trades[j].price)
    ensures LastPrice(trades).None?
  {
    if trades != [] { NoLastPrice(trades[..|trades| - 1]); }
  }

  lemma {:induction false} FirstPriceIs(trades: seq<Trade>, i: nat)
    requires FirstPriced(trades, 0, i)
    ensures FirstPrice(trades) == trades[i].price
  {
    if i > 0 {
      assert trades[1..][i - 1] == trades[i];
      FirstPriceIs(trades[1..], i - 1);
    }
  }
}
