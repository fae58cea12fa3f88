/** Trading statistics over time windows from the newest page of a trade list (backend/app/domain/windows.py).  Times are
in microseconds; the truth a window is compared with is what the same rules say about the whole history. */
module Windows {
  import opened Common

  const SECOND := 1_000_000

  /** The window lengths, in seconds. */
  const WINDOWS: seq<int> := [300, 900, 3600, 7200, 14400, 21600, 43200, 86400]

  const DAY := 86400 * SECOND

  datatype Side = Buy | Sell

  /** A row of the provider's list; a timestamp that cannot be read is None, numbers likewise. */
  datatype Row = Row(ts: Option<int>, kind: string, volume: Option<real>, volumeAlt: Option<real>, trader: string,
                     priceFrom: Option<real>, priceTo: Option<real>)

  datatype Trade = Trade(ts: int, side: Side, usd: real, trader: string, price: Option<real>)

  datatype Stats = Stats(buyers: nat, sellers: nat, buys: nat, sells: nat, buyVolume: real, sellVolume: real,
                         change: Option<real>)

  // ---------------------------------------------------------------- parsing

  /** Zero counts as missing, as it does in `a or b`. */
  predicate Present(x: Option<real>) { x.Some? && x.value != 0.0 }

  function OrElse(x: Option<real>, y: Option<real>): Option<real> { if Present(x) then x else y }

  function ParseRow(row: Row, targetIsBase: bool): Option<Trade> {
    if row.ts.None? || (row.kind != "buy" && row.kind != "sell") then None
    else
      var buy := row.kind == "buy";
      var side := if buy == targetIsBase then Buy else Sell;
      var usd := OrElse(row.volume, OrElse(row.volumeAlt, Some(0.0)));
      var price := if targetIsBase then OrElse(OrElse(if buy then row.priceTo else row.priceFrom, row.priceTo), row.priceFrom)
                   else OrElse(OrElse(if buy then row.priceFrom else row.priceTo, row.priceFrom), row.priceTo);
      Some(Trade(row.ts.value, side, usd.value, row.trader, price))
  }

  function Parsed(rows: seq<Row>, targetIsBase: bool): seq<Trade> {
    if rows == [] then []
    else
      var rest := Parsed(rows[1..], targetIsBase);
      match ParseRow(rows[0], targetIsBase)
      case None => rest
      case Some(t) => [t] + rest
  }

  // ---------------------------------------------------------------- what the rows mean

  /** A swap in the pool of a base and a quote token, as the provider lists it: a "buy" takes base tokens out; the "from"
      price is that of the token paid in, the "to" price that of the token taken out. */
  datatype Swap = Swap(ts: Option<int>, baseOut: bool, usd: real, trader: string, basePrice: Option<real>,
                       quotePrice: Option<real>)

  function Listed(s: Swap): Row {
    Row(s.ts, if s.baseOut then "buy" else "sell", Some(s.usd), None, s.trader,
        if s.baseOut then s.quotePrice else s.basePrice, if s.baseOut then s.basePrice else s.quotePrice)
  }

  function ListedAll(swaps: seq<Swap>): seq<Row> {
    if swaps == [] then [] else [Listed(swaps[0])] + ListedAll(swaps[1..])
  }

  function Readable(swaps: seq<Swap>): (r: seq<Swap>)
    ensures forall s :: s in r ==> s.ts.Some?
  {
    if swaps == [] then [] else (if swaps[0].ts.Some? then [swaps[0]] else []) + Readable(swaps[1..])
  }

  /** The trade tells the swap from the target's point of view: bought if the target token was taken out, at the target's own
      price; the other token's price stands in if that is missing. */
  ghost predicate Tells(t: Trade, s: Swap, targetIsBase: bool)
    requires s.ts.Some?
  {
    var own, other := if targetIsBase then s.basePrice else s.quotePrice, if targetIsBase then s.quotePrice else s.basePrice;
    && t.ts == s.ts.value && t.usd == s.usd && t.trader == s.trader
    && (t.side == Buy <==> s.baseOut == targetIsBase)
    && (Present(own) ==> t.price == own)
    && (!Present(own) && Present(other) ==> t.price == other)
    && (!Present(own) && !Present(other) ==> !Present(t.price))
  }

  lemma OneTellsSwap(s: Swap, targetIsBase: bool)
    ensures ParseRow(Listed(s), targetIsBase).Some? <==> s.ts.Some?
    ensures s.ts.Some? ==> Tells(ParseRow(Listed(s), targetIsBase).value, s, targetIsBase)
  {
  }

  /** A missing or zero volume is taken from the other field, and is zero if both are. */
  lemma VolumeFallsBack(row: Row, targetIsBase: bool)
    requires ParseRow(row, targetIsBase).Some?
    ensures var usd := ParseRow(row, targetIsBase).value.usd;
            && (row.volume.Some? && row.volume.value != 0.0 ==> usd == row.volume.value)
            && (!Present(row.volume) && row.volumeAlt.Some? ==> usd == row.volumeAlt.value)
            && (!Present(row.volume) && row.volumeAlt.None? ==> usd == 0.0)
  {
  }

  lemma ParsedCons(row: Row, rows: seq<Row>, targetIsBase: bool)
    ensures Parsed([row] + rows, targetIsBase)
         == match ParseRow(row, targetIsBase)
            case None => Parsed(rows, targetIsBase)
            case Some(t) => [t] + Parsed(rows, targetIsBase)
  {
    assert ([row] + rows)[1..] == rows;
  }

  /** The trades tell the swaps, one by one. */
  ghost predicate TellsAll(ts: seq<Trade>, swaps: seq<Swap>, targetIsBase: bool)
    requires forall s :: s in swaps ==> s.ts.Some?
  {
    |ts| == |swaps| && forall i :: 0 <= i < |swaps| ==> Tells(ts[i], swaps[i], targetIsBase)
  }

  lemma TellsMore(t: Trade, ts: seq<Trade>, s: Swap, swaps: seq<Swap>, targetIsBase: bool)
    requires (forall s :: s in swaps ==> s.ts.Some?) && s.ts.Some?
    requires Tells(t, s, targetIsBase) && TellsAll(ts, swaps, targetIsBase)
    ensures TellsAll([t] + ts, [s] + swaps, targetIsBase)
  {
  }

  /** Parsing undoes the listing: one trade per readable swap, in the order of the list. */
  lemma {:induction false} ParsedTellsSwaps(swaps: seq<Swap>, targetIsBase: bool)
    ensures TellsAll(Parsed(ListedAll(swaps), targetIsBase), Readable(swaps), targetIsBase)
  {
    if swaps != [] {
      var rows, told := ListedAll(swaps[1..]), Readable(swaps[1..]);
      ParsedTellsSwaps(swaps[1..], targetIsBase);
      OneTellsSwap(swaps[0], targetIsBase);
      ParsedCons(Listed(swaps[0]), rows, targetIsBase);
      if swaps[0].ts.Some? {
        TellsMore(ParseRow(Listed(swaps[0]), targetIsBase).value, Parsed(rows, targetIsBase), swaps[0], told, targetIsBase);
      } else {
        assert Readable(swaps) == told && Parsed(ListedAll(swaps), targetIsBase) == Parsed(rows, targetIsBase);
      }
    }
  }

  /** Other rows leave no trace. */
  lemma {:induction false} ParsedSkipsUnreadable(before: seq<Row>, row: Row, after: seq<Row>, targetIsBase: bool)
    requires row.ts.None? || (row.kind != "buy" && row.kind != "sell")
    ensures Parsed(before + [row] + after, targetIsBase) == Parsed(before + after, targetIsBase)
  {
    if before == [] {
      assert ([] + [row] + after)[1..] == after && [] + after == after;
    } else {
      assert (before + [row] + after)[1..] == before[1..] + [row] + after && (before + after)[1..] == before[1..] + after;
      ParsedSkipsUnreadable(before[1..], row, after, targetIsBase);
    }
  }

  // ---------------------------------------------------------------- selecting

  function Since(trades: seq<Trade>, start: int): seq<Trade> {
    if trades == [] then []
    else if trades[0].ts >= start then [trades[0]] + Since(trades[1..], start)
    else Since(trades[1..], start)
  }

  function Until(trades: seq<Trade>, start: int): seq<Trade> {
    if trades == [] then []
    else if trades[0].ts < start then [trades[0]] + Until(trades[1..], start)
    else Until(trades[1..], start)
  }

  function OfSide(trades: seq<Trade>, side: Side): seq<Trade> {
    if trades == [] then []
    else if trades[0].side == side then [trades[0]] + OfSide(trades[1..], side)
    else OfSide(trades[1..], side)
  }

  function Traders(trades: seq<Trade>): set<string> {
    set t | t in trades && t.trader != "" :: t.trader
  }

  function Volume(trades: seq<Trade>): real {
    if trades == [] then 0.0 else trades[0].usd + Volume(trades[1..])
  }

  function FirstPrice(trades: seq<Trade>): Option<real> {
    if trades == [] then None else if Present(trades[0].price) then trades[0].price else FirstPrice(trades[1..])
  }

  function LastPrice(trades: seq<Trade>): Option<real> {
    if trades == [] then None
    else if Present(trades[|trades| - 1].price) then trades[|trades| - 1].price
    else LastPrice(trades[..|trades| - 1])
  }

  // ---------------------------------------------------------------- stable sort by time

  function Insert(t: Trade, sorted: seq<Trade>): seq<Trade> {
    if sorted == [] || t.ts <= sorted[0].ts then [t] + sorted else [sorted[0]] + Insert(t, sorted[1..])
  }

  function ByTime(trades: seq<Trade>): seq<Trade> {
    if trades == [] then [] else Insert(trades[0], ByTime(trades[1..]))
  }

  // ---------------------------------------------------------------- one window

  /** The statistics of one window over trades in order of time. */
  function StatsOf(sorted: seq<Trade>, start: int): Stats {
    var inside := Since(sorted, start);
    var buys, sells := OfSide(inside, Buy), OfSide(inside, Sell);
    var before := LastPrice(Until(sorted, start));
    var ref := if before.Some? then before else FirstPrice(inside);
    var latest := LastPrice(sorted);
    Stats(|Traders(buys)|, |Traders(sells)|, |buys|, |sells|, Volume(buys), Volume(sells),
          if ref.Some? && ref.value != 0.0 && latest.Some? && inside != []
          then Some((latest.value / ref.value - 1.0) * 100.0) else None)
  }

  /** What the history as a whole says about the window that begins at start. */
  function Truth(history: seq<Row>, targetIsBase: bool, start: int): Stats {
    StatsOf(ByTime(Parsed(history, targetIsBase)), start)
  }

  function Earliest(trades: seq<Trade>): (r: int)
    requires trades != []
    ensures forall t :: t in trades ==> r <= t.ts
    ensures exists t :: t in trades && t.ts == r
  {
    if |trades| == 1 then trades[0].ts
    else
      var rest := Earliest(trades[1..]);
      if trades[0].ts <= rest then trades[0].ts else rest
  }

  /** How far back the page is taken to reach. */
  function CoverageStart(rows: seq<Row>, targetIsBase: bool, now: int, limit: nat): int {
    var trades := Parsed(rows, targetIsBase);
    if |rows| >= limit && trades != [] then Earliest(trades) else now - DAY
  }

  function Start(now: int, w: int): int { now - w * SECOND }

  predicate Reported(rows: seq<Row>, targetIsBase: bool, now: int, limit: nat, w: int) {
    rows != [] && w in WINDOWS && Start(now, w) + SECOND >= CoverageStart(rows, targetIsBase, now, limit)
  }

  // ---------------------------------------------------------------- the program

  method ParseTrades(rows: seq<Row>, targetIsBase: bool) returns (out: seq<Trade>)
    ensures out == Parsed(rows, targetIsBase)
  {
    out := [];
    var i := 0;
    while i < |rows|
      invariant 0 <= i <= |rows| && out + Parsed(rows[i..], targetIsBase) == Parsed(rows, targetIsBase)
    {
      assert rows[i..][1..] == rows[i + 1..];
      var t := ParseRow(rows[i], targetIsBase);
      if t.Some? { out := out + [t.value]; }
      i := i + 1;
    }
  }

  method WindowsFromTrades(rows: seq<Row>, now: int, targetIsBase: bool, limit: nat) returns (out: map<int, Stats>)
    ensures forall w :: w in out <==> Reported(rows, targetIsBase, now, limit, w)
    ensures forall w :: w in out ==> out[w] == Truth(rows, targetIsBase, Start(now, w))
  {
    var events := ParseTrades(rows, targetIsBase);
    out := map[];
    if rows == [] { return; }
    var coverageStart := if |rows| >= limit && events != [] then Earliest(events) else now - DAY;
    out := CoveredWindows(ByTime(events), now, coverageStart);
  }

  /** The loop over the windows, given the trades in order of time. */
  method CoveredWindows(events: seq<Trade>, now: int, coverageStart: int) returns (out: map<int, Stats>)
    ensures forall w :: w in out <==> w in WINDOWS && Start(now, w) + SECOND >= coverageStart
    ensures forall w :: w in out ==> out[w] == StatsOf(events, Start(now, w))
  {
    out := map[];
    var windows := WINDOWS;
    var i := 0;
    while i < |windows|
      invariant 0 <= i <= |windows|
      invariant forall w :: w in out <==> w in windows[..i] && Start(now, w) + SECOND >= coverageStart
      invariant forall w :: w in out ==> out[w] == StatsOf(events, Start(now, w))
    {
      var start := Start(now, windows[i]);
      if start + SECOND >= coverageStart {
        out := out[windows[i] := StatsOf(events, start)];
      }
      i := i + 1;
    }
  }

  // ---------------------------------------------------------------- sorting and selecting commute

  ghost predicate Sorted(trades: seq<Trade>) {
    forall i, j :: 0 <= i < j < |trades| ==> trades[i].ts <= trades[j].ts
  }

  lemma {:induction false} InsertAdds(t: Trade, sorted: seq<Trade>)
    ensures multiset(Insert(t, sorted)) == multiset(sorted) + multiset{t}
  {
    if sorted != [] && t.ts > sorted[0].ts {
      InsertAdds(t, sorted[1..]);
      assert sorted == [sorted[0]] + sorted[1..];
    }
  }

  lemma {:induction false} InsertSorts(t: Trade, sorted: seq<Trade>)
    requires Sorted(sorted)
    ensures Sorted(Insert(t, sorted)) && multiset(Insert(t, sorted)) == multiset(sorted) + multiset{t}
  {
    InsertAdds(t, sorted);
    if sorted != [] && t.ts > sorted[0].ts {
      InsertSorts(t, sorted[1..]);
      var r := Insert(t, sorted[1..]);
      forall i | 0 <= i < |r| ensures sorted[0].ts <= r[i].ts {
        assert r[i] in multiset(r);
        assert r[i] == t || r[i] in sorted[1..];
      }
    }
  }

  lemma {:induction false} ByTimeSorts(trades: seq<Trade>)
    ensures Sorted(ByTime(trades)) && multiset(ByTime(trades)) == multiset(trades)
  {
    if trades != [] {
      ByTimeSorts(trades[1..]);
      InsertSorts(trades[0], ByTime(trades[1..]));
      assert trades == [trades[0]] + trades[1..];
    }
  }

  lemma {:induction false} SinceInsert(t: Trade, sorted: seq<Trade>, start: int)
    requires Sorted(sorted)
    ensures Since(Insert(t, sorted), start) == if t.ts >= start then Insert(t, Since(sorted, start)) else Since(sorted, start)
  {
    if sorted == [] || t.ts <= sorted[0].ts {
      assert ([t] + sorted)[1..] == sorted;
      if t.ts >= start { AllSince(sorted, start); }
    } else {
      assert ([sorted[0]] + Insert(t, sorted[1..]))[1..] == Insert(t, sorted[1..]);
      SinceInsert(t, sorted[1..], start);
    }
  }

  lemma {:induction false} AllSince(trades: seq<Trade>, start: int)
    requires forall t :: t in trades ==> t.ts >= start
    ensures Since(trades, start) == trades
  {
    if trades != [] { AllSince(trades[1..], start); }
  }

  lemma {:induction false} NoneSince(trades: seq<Trade>, start: int)
    requires forall t :: t in trades ==> t.ts < start
    ensures Since(trades, start) == [] && Until(trades, start) == trades
  {
    if trades != [] { NoneSince(trades[1..], start); }
  }

  lemma {:induction false} SinceByTime(trades: seq<Trade>, start: int)
    ensures Since(ByTime(trades), start) == ByTime(Since(trades, start))
  {
    if trades != [] {
      SinceByTime(trades[1..], start);
      ByTimeSorts(trades[1..]);
      SinceInsert(trades[0], ByTime(trades[1..]), start);
      assert ([trades[0]] + Since(trades[1..], start))[1..] == Since(trades[1..], start);
    }
  }

  lemma {:induction false} SinceJoin(a: seq<Trade>, b: seq<Trade>, start: int)
    ensures Since(a + b, start) == Since(a, start) + Since(b, start)
  {
    if a == [] {
      assert a + b == b;
    } else {
      assert (a + b)[1..] == a[1..] + b;
      SinceJoin(a[1..], b, start);
    }
  }

  lemma {:induction false} ParsedJoin(a: seq<Row>, b: seq<Row>, targetIsBase: bool)
    ensures Parsed(a + b, targetIsBase) == Parsed(a, targetIsBase) + Parsed(b, targetIsBase)
  {
    if a == [] {
      assert a + b == b;
    } else {
      assert (a + b)[1..] == a[1..] + b;
      ParsedJoin(a[1..], b, targetIsBase);
    }
  }

  // ---------------------------------------------------------------- what a page says about the whole history

  /** rows is the newest page of the history: what follows it is not newer than any of it, and nothing of the last 24
      hours follows a page that is not full. */
  ghost predicate NewestPage(rows: seq<Row>, rest: seq<Row>, targetIsBase: bool, now: int, limit: nat) {
    && (forall t, u :: t in Parsed(rows, targetIsBase) && u in Parsed(rest, targetIsBase) ==> t.ts >= u.ts)
    && (|rows| < limit ==> forall u :: u in Parsed(rest, targetIsBase) ==> u.ts < now - DAY)
  }

  /** The page reaches back beyond the start of the window: it is not full, or its oldest trade is older than that. */
  predicate ReachesBack(rows: seq<Row>, targetIsBase: bool, limit: nat, start: int) {
    |rows| < limit || (Parsed(rows, targetIsBase) != [] && Earliest(Parsed(rows, targetIsBase)) < start)
  }

  /** The part of the statistics that counts trades. */
  function Counts(s: Stats): Stats { s.(change := None) }

  lemma OlderTradesDoNotMatter(a: seq<Trade>, b: seq<Trade>, start: int)
    requires forall u :: u in b ==> u.ts < start
    ensures Since(ByTime(a + b), start) == Since(ByTime(a), start)
  {
    SinceJoin(a, b, start);
    NoneSince(b, start);
    assert Since(a, start) + [] == Since(a, start);
    SinceByTime(a + b, start);
    SinceByTime(a, start);
  }

  lemma SameInside(rows: seq<Row>, rest: seq<Row>, targetIsBase: bool, start: int)
    requires forall u :: u in Parsed(rest, targetIsBase) ==> u.ts < start
    ensures Since(ByTime(Parsed(rows + rest, targetIsBase)), start) == Since(ByTime(Parsed(rows, targetIsBase)), start)
  {
    ParsedJoin(rows, rest, targetIsBase);
    OlderTradesDoNotMatter(Parsed(rows, targetIsBase), Parsed(rest, targetIsBase), start);
  }

  lemma WindowsWithinDay(now: int, w: int)
    requires w in WINDOWS
    ensures now - DAY <= Start(now, w) < now
  {
  }

  /** Which windows are reported: all of them if the page is not full or has no readable row, and otherwise those that begin no
      earlier than a second before some trade of the page. */
  lemma ReportedIff(rows: seq<Row>, targetIsBase: bool, now: int, limit: nat, w: int)
    requires rows != [] && w in WINDOWS
    ensures Reported(rows, targetIsBase, now, limit, w)
       <==> |rows| < limit || Parsed(rows, targetIsBase) == []
            || exists t :: t in Parsed(rows, targetIsBase) && t.ts <= Start(now, w) + SECOND
  {
    WindowsWithinDay(now, w);
  }

  /** A window that the page reaches back beyond is exact: trade counts, unique traders and volumes are those of the whole
      history. */
  lemma CoveredWindowIsExact(rows: seq<Row>, rest: seq<Row>, targetIsBase: bool, now: int, limit: nat, w: int)
    requires NewestPage(rows, rest, targetIsBase, now, limit) && w in WINDOWS
    requires ReachesBack(rows, targetIsBase, limit, Start(now, w))
    ensures Counts(Truth(rows, targetIsBase, Start(now, w))) == Counts(Truth(rows + rest, targetIsBase, Start(now, w)))
  {
    WindowsWithinDay(now, w);
    SameInside(rows, rest, targetIsBase, Start(now, w));
  }

  /** What the second of slack costs: a reported window misses at most trades between its start and the oldest trade of the
      page. */
  lemma SlackMissesOnlyItsSecond(rows: seq<Row>, rest: seq<Row>, targetIsBase: bool, now: int, limit: nat, w: int, u: Trade)
    requires NewestPage(rows, rest, targetIsBase, now, limit) && Parsed(rows, targetIsBase) != []
    requires Reported(rows, targetIsBase, now, limit, w) && u in Parsed(rest, targetIsBase) && u.ts >= Start(now, w)
    ensures |rows| >= limit
    ensures Start(now, w) <= u.ts <= CoverageStart(rows, targetIsBase, now, limit) <= Start(now, w) + SECOND
  {
    WindowsWithinDay(now, w);
    var t :| t in Parsed(rows, targetIsBase) && t.ts == Earliest(Parsed(rows, targetIsBase));
  }

  /** When a reported window can be trusted: it agrees with every history that the page may be the newest part of if and
      only if the page reaches back beyond its start.  In particular a full page without a single readable trade, which is
      taken to cover the whole day, says nothing about any window. */
  lemma ExactIffReachesBack(rows: seq<Row>, targetIsBase: bool, now: int, limit: nat, w: int)
    requires Reported(rows, targetIsBase, now, limit, w)
    ensures ReachesBack(rows, targetIsBase, limit, Start(now, w))
       <==> (forall rest :: NewestPage(rows, rest, targetIsBase, now, limit)
                ==> Counts(Truth(rows, targetIsBase, Start(now, w))) == Counts(Truth(rows + rest, targetIsBase, Start(now, w))))
  {
    if ReachesBack(rows, targetIsBase, limit, Start(now, w)) {
      forall rest | NewestPage(rows, rest, targetIsBase, now, limit)
        ensures Counts(Truth(rows, targetIsBase, Start(now, w))) == Counts(Truth(rows + rest, targetIsBase, Start(now, w)))
      {
        CoveredWindowIsExact(rows, rest, targetIsBase, now, limit, w);
      }
    } else {
      var rest := MissedTrade(rows, targetIsBase, now, limit, Start(now, w));
      assert NewestPage(rows, rest, targetIsBase, now, limit);
    }
  }

  /** A trade that may have followed a page that does not reach back far enough, and that its window misses. */
  lemma MissedTrade(rows: seq<Row>, targetIsBase: bool, now: int, limit: nat, start: int) returns (rest: seq<Row>)
    requires !ReachesBack(rows, targetIsBase, limit, start)
    ensures NewestPage(rows, rest, targetIsBase, now, limit)
    ensures var page, whole := Truth(rows, targetIsBase, start), Truth(rows + rest, targetIsBase, start);
            whole.buys + whole.sells == page.buys + page.sells + 1
  {
    var trades := Parsed(rows, targetIsBase);
    var ts := if trades == [] then start else Earliest(trades);
    rest := [Row(Some(ts), "buy", None, None, "", None, None)];
    var missed := Trade(ts, if targetIsBase then Buy else Sell, 0.0, "", None);
    assert rest[1..] == [];
    assert Parsed(rest, targetIsBase) == [missed];
    ParsedJoin(rows, rest, targetIsBase);
    SidesCount(trades, start);
    SidesCount(trades + [missed], start);
    SinceJoin(trades, [missed], start);
    assert [missed][1..] == [];
    assert Since([missed], start) == [missed];
  }

  /** Both sides together are all trades of the window. */
  lemma SidesCount(trades: seq<Trade>, start: int)
    ensures var s := StatsOf(ByTime(trades), start); s.buys + s.sells == |Since(trades, start)|
  {
    SinceByTime(trades, start);
    EitherSide(ByTime(Since(trades, start)));
    ByTimeSorts(Since(trades, start));
    SameLength(ByTime(Since(trades, start)), Since(trades, start));
  }

  lemma SameLength(a: seq<Trade>, b: seq<Trade>)
    requires multiset(a) == multiset(b)
    ensures |a| == |b|
  {
    assert |multiset(a)| == |a| && |multiset(b)| == |b|;
  }

  lemma {:induction false} EitherSide(trades: seq<Trade>)
    ensures |OfSide(trades, Buy)| + |OfSide(trades, Sell)| == |trades|
  {
    if trades != [] { EitherSide(trades[1..]); }
  }

  // ---------------------------------------------------------------- longer windows

  /** The windows reported are a prefix of WINDOWS: with a window every shorter one is reported. */
  lemma ReportedWindowsArePrefix(rows: seq<Row>, targetIsBase: bool, now: int, limit: nat, w: int, shorter: int)
    requires Reported(rows, targetIsBase, now, limit, w) && shorter in WINDOWS && shorter <= w
    ensures Reported(rows, targetIsBase, now, limit, shorter)
  {
  }

  lemma FewerSince(trades: seq<Trade>, start: int, later: int, side: Side)
    requires start <= later
    ensures |OfSide(Since(trades, later), side)| <= |OfSide(Since(trades, start), side)|
    ensures Traders(OfSide(Since(trades, later), side)) <= Traders(OfSide(Since(trades, start), side))
  {
    FewerOnSide(trades, start, later, side);
    var few, many := OfSide(Since(trades, later), side), OfSide(Since(trades, start), side);
    forall name | name in Traders(few) ensures name in Traders(many) {
      var t :| t in few && t.trader != "" && t.trader == name;
      OnSide(Since(trades, later), side, t);
      SinceHolds(trades, later, t);
      SinceHolds(trades, start, t);
      OnSide(Since(trades, start), side, t);
    }
  }

  lemma {:induction false} FewerOnSide(trades: seq<Trade>, start: int, later: int, side: Side)
    requires start <= later
    ensures |OfSide(Since(trades, later), side)| <= |OfSide(Since(trades, start), side)|
  {
    if trades != [] {
      FewerOnSide(trades[1..], start, later, side);
      var a, b := Since(trades[1..], start), Since(trades[1..], later);
      assert ([trades[0]] + a)[1..] == a && ([trades[0]] + b)[1..] == b;
    }
  }

  lemma {:induction false} OnSide(trades: seq<Trade>, side: Side, t: Trade)
    ensures t in OfSide(trades, side) <==> t in trades && t.side == side
  {
    if trades != [] { OnSide(trades[1..], side, t); }
  }

  lemma {:induction false} SinceHolds(trades: seq<Trade>, start: int, t: Trade)
    ensures t in Since(trades, start) <==> t in trades && t.ts >= start
    ensures t in Until(trades, start) <==> t in trades && t.ts < start
  {
    if trades != [] { SinceHolds(trades[1..], start, t); }
  }

  lemma SubsetSmaller(a: set<string>, b: set<string>)
    requires a <= b
    ensures |a| <= |b|
  {
    assert b == a + (b - a);
  }

  /** Counts and unique traders never shrink with a longer window. */
  lemma CountsGrowWithWindow(rows: seq<Row>, targetIsBase: bool, now: int, shorter: int, longer: int)
    requires shorter <= longer
    ensures var a, b := Truth(rows, targetIsBase, Start(now, shorter)), Truth(rows, targetIsBase, Start(now, longer));
            a.buys <= b.buys && a.sells <= b.sells && a.buyers <= b.buyers && a.sellers <= b.sellers
  {
    var sorted, early, late := ByTime(Parsed(rows, targetIsBase)), Start(now, longer), Start(now, shorter);
    FewerSince(sorted, early, late, Buy);
    FewerSince(sorted, early, late, Sell);
    SubsetSmaller(Traders(OfSide(Since(sorted, late), Buy)), Traders(OfSide(Since(sorted, early), Buy)));
    SubsetSmaller(Traders(OfSide(Since(sorted, late), Sell)), Traders(OfSide(Since(sorted, early), Sell)));
  }

  // ---------------------------------------------------------------- the price change

  lemma {:induction false} SortedSplits(sorted: seq<Trade>, start: int)
    requires Sorted(sorted)
    ensures sorted == Until(sorted, start) + Since(sorted, start)
  {
    if sorted != [] {
      if sorted[0].ts >= start {
        NoneUntil(sorted, start);
      } else {
        SortedSplits(sorted[1..], start);
        assert sorted == [sorted[0]] + sorted[1..];
      }
    }
  }

  lemma {:induction false} NoneUntil(trades: seq<Trade>, start: int)
    requires forall t :: t in trades ==> t.ts >= start
    ensures Until(trades, start) == [] && Since(trades, start) == trades
  {
    if trades != [] { NoneUntil(trades[1..], start); }
  }

  lemma {:induction false} UntilJoin(a: seq<Trade>, b: seq<Trade>, start: int)
    ensures Until(a + b, start) == Until(a, start) + Until(b, start)
  {
    if a == [] {
      assert a + b == b;
    } else {
      assert (a + b)[1..] == a[1..] + b;
      UntilJoin(a[1..], b, start);
    }
  }

  lemma {:induction false} LastPriceJoin(a: seq<Trade>, b: seq<Trade>)
    ensures LastPrice(a + b) == if LastPrice(b).Some? then LastPrice(b) else LastPrice(a)
  {
    if b == [] {
      assert a + b == a;
    } else {
      assert (a + b)[..|a + b| - 1] == a + b[..|b| - 1];
      LastPriceJoin(a, b[..|b| - 1]);
    }
  }

  lemma {:induction false} SomePrice(trades: seq<Trade>, t: Trade)
    requires t in trades && Present(t.price)
    ensures LastPrice(trades).Some?
  {
    var front, last := trades[..|trades| - 1], trades[|trades| - 1];
    assert trades == front + [last];
    if !Present(last.price) { SomePrice(front, t); }
  }

  /** Beyond the time m two trade lists agree, and between m and start there is a price: then they agree on the last price
      before start and on the last price of all. */
  lemma SamePrices(a: seq<Trade>, b: seq<Trade>, m: int, start: int, t: Trade)
    requires Sorted(a) && Sorted(b) && Since(a, m) == Since(b, m)
    requires t in a && m <= t.ts < start && Present(t.price)
    ensures LastPrice(Until(a, start)) == LastPrice(Until(b, start)) && LastPrice(Until(a, start)).Some?
    ensures LastPrice(a) == LastPrice(b)
  {
    SortedSplits(a, m);
    SortedSplits(b, m);
    SinceHolds(a, m, t);
    SinceHolds(Since(a, m), start, t);
    SomePrice(Since(a, m), t);
    LastPriceJoin(Until(a, m), Since(a, m));
    LastPriceJoin(Until(b, m), Since(b, m));
    UntilJoin(Until(a, m), Since(a, m), start);
    UntilJoin(Until(b, m), Since(b, m), start);
    SomePrice(Until(Since(a, m), start), t);
    LastPriceJoin(Until(Until(a, m), start), Until(Since(a, m), start));
    LastPriceJoin(Until(Until(b, m), start), Until(Since(b, m), start));
  }

  /** The price change of a window is that of the whole history as soon as the page holds one priced trade that is older
      than the window and newer than the oldest trade of the page (than a day, if the page is not full). */
  lemma PriceChangeIsExact(rows: seq<Row>, rest: seq<Row>, targetIsBase: bool, now: int, limit: nat, w: int, t: Trade)
    requires NewestPage(rows, rest, targetIsBase, now, limit) && w in WINDOWS
    requires t in Parsed(rows, targetIsBase) && Present(t.price) && t.ts < Start(now, w)
    requires if |rows| < limit then t.ts >= now - DAY else t.ts > Earliest(Parsed(rows, targetIsBase))
    ensures Truth(rows, targetIsBase, Start(now, w)) == Truth(rows + rest, targetIsBase, Start(now, w))
  {
    var m := Beyond(rows, rest, targetIsBase, now, limit);
    WindowsWithinDay(now, w);
    SameInside(rows, rest, targetIsBase, m);
    SameInside(rows, rest, targetIsBase, Start(now, w));
    ByTimeSorts(Parsed(rows, targetIsBase));
    ByTimeSorts(Parsed(rows + rest, targetIsBase));
    assert t in multiset(ByTime(Parsed(rows, targetIsBase)));
    SameStats(ByTime(Parsed(rows, targetIsBase)), ByTime(Parsed(rows + rest, targetIsBase)), m, Start(now, w), t);
  }

  lemma SameStats(a: seq<Trade>, b: seq<Trade>, m: int, start: int, t: Trade)
    requires Sorted(a) && Sorted(b) && Since(a, m) == Since(b, m) && Since(a, start) == Since(b, start)
    requires t in a && m <= t.ts < start && Present(t.price)
    ensures StatsOf(a, start) == StatsOf(b, start)
  {
    SamePrices(a, b, m, start, t);
  }

  /** From this time on nothing follows the page. */
  lemma Beyond(rows: seq<Row>, rest: seq<Row>, targetIsBase: bool, now: int, limit: nat) returns (m: int)
    requires NewestPage(rows, rest, targetIsBase, now, limit) && Parsed(rows, targetIsBase) != []
    ensures m == if |rows| < limit then now - DAY else Earliest(Parsed(rows, targetIsBase)) + 1
    ensures forall u :: u in Parsed(rest, targetIsBase) ==> u.ts < m
  {
    var trades := Parsed(rows, targetIsBase);
    var earliest := Earliest(trades);
    var oldest :| oldest in trades && oldest.ts == earliest;
    m := if |rows| < limit then now - DAY else oldest.ts + 1;
  }
}
