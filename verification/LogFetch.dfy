/** Adaptive eth_getLogs (EvmRpcClient.get_logs in backend/app/chains/evm.py). */
module LogFetch {
  // A provider refuses a block span that is too wide; the client then halves its chunk, remembers the smaller chunk for its
  // whole life and asks again.  The provider's answers are arbitrary here: any call may be served, refused or fail for
  // another reason.

  import opened Common

  /** What one eth_getLogs call comes back with, after call()'s own retries and failover. */
  datatype Reply =
    | Served                     // the logs of the span asked for
    | Refused(tooWide: bool)     // an RpcError, recognised as a range refusal or not
    | Unavailable                // any other exception

  datatype Fetch<L> = Logs(rows: seq<L>) | RpcError(tooWide: bool) | DataUnavailable

  /** The last of so many calls asked for this span, and out is what its reply turns into. */
  ghost predicate FailedOn<L>(provider: (nat, int, int) -> Reply, calls: nat, start: int, end: int, out: Fetch<L>) {
    calls > 0 && provider(calls - 1, start, end) != Served && out == ErrorOf(provider(calls - 1, start, end))
  }

  /** The served spans tile the front of the range, and the last call, for the block next in turn, failed with that error. */
  ghost predicate StoppedAfter<L>(provider: (nat, int, int) -> Reply, calls: nat, served: seq<(int, int)>, first: int,
                                  last: int, out: Fetch<L>)
  {
    exists next, end :: first <= next <= end <= last && Tiles(served, first, next) && FailedOn(provider, calls, next, end, out)
  }

  lemma StopsHere<L>(provider: (nat, int, int) -> Reply, calls: nat, served: seq<(int, int)>, first: int, last: int,
                     next: int, end: int, out: Fetch<L>)
    requires first <= next <= end <= last && Tiles(served, first, next) && FailedOn(provider, calls, next, end, out)
    ensures StoppedAfter(provider, calls, served, first, last, out)
  {
  }

  /** What an error reply is raised as. */
  function ErrorOf<L>(reply: Reply): Fetch<L>
    requires reply != Served
  {
    match reply
    case Refused(tooWide) => RpcError(tooWide)
    case Unavailable => DataUnavailable
  }

  /** The reply to the i-th of the spans asked for, where the first was call number c0. */
  function ReplyTo(provider: (nat, int, int) -> Reply, c0: nat, asked: seq<(int, int)>, i: nat): Reply
    requires i < |asked|
  {
    provider(c0 + i, asked[i].0, asked[i].1)
  }

  /** The replies after which the client asks for more: those that serve, and refusals of a range. */
  predicate GoesOn(reply: Reply) { reply == Served || reply == Refused(true) }

  /** How many of the spans were refused. */
  function Refusals(provider: (nat, int, int) -> Reply, c0: nat, asked: seq<(int, int)>): nat {
    if asked == [] then 0
    else
      var n := |asked| - 1;
      Refusals(provider, c0, asked[..n]) + if ReplyTo(provider, c0, asked, n).Refused? then 1 else 0
  }

  /** The spans that were served. */
  function ServedOf(provider: (nat, int, int) -> Reply, c0: nat, asked: seq<(int, int)>): seq<(int, int)> {
    if asked == [] then []
    else
      var n := |asked| - 1;
      ServedOf(provider, c0, asked[..n]) + if ReplyTo(provider, c0, asked, n) == Served then [asked[n]] else []
  }

  /** The n-th call asks for a span; all calls before went on. */
  ghost predicate Asked(provider: (nat, int, int) -> Reply, c0: nat, asked: seq<(int, int)>, n: nat) {
    n <= |asked| && forall i: nat :: i < n ==> GoesOn(ReplyTo(provider, c0, asked, i))
  }

  /** The client went on after all these calls: these spans were served, and so many refused. */
  ghost predicate WentOn(provider: (nat, int, int) -> Reply, c0: nat, asked: seq<(int, int)>, served: seq<(int, int)>,
                         refusals: int)
  {
    && Asked(provider, c0, asked, |asked|)
    && served == ServedOf(provider, c0, asked) && refusals == Refusals(provider, c0, asked)
  }

  lemma AskMore(provider: (nat, int, int) -> Reply, c0: nat, asked: seq<(int, int)>, served: seq<(int, int)>, refusals: int,
                span: (int, int))
    requires WentOn(provider, c0, asked, served, refusals)
    ensures var more, reply := asked + [span], provider(c0 + |asked|, span.0, span.1);
            && (reply == Served ==> WentOn(provider, c0, more, served + [span], refusals))
            && (reply == Refused(true) ==> WentOn(provider, c0, more, served, refusals + 1))
  {
    assert ServedOf(provider, c0, asked) == served;
    var more := asked + [span];
    assert more[..|asked|] == asked;
    forall i: nat | i < |asked| ensures GoesOn(ReplyTo(provider, c0, more, i)) {
      assert more[i] == asked[i] && GoesOn(ReplyTo(provider, c0, asked, i));
    }
  }

  /** A call that asked for these spans went on after all of them, or after all but the last, whose error it gives back. */
  ghost predicate EndsWith<L>(provider: (nat, int, int) -> Reply, c0: nat, asked: seq<(int, int)>, out: Fetch<L>) {
    if out.Logs? then Asked(provider, c0, asked, |asked|)
    else
      && asked != [] && Asked(provider, c0, asked, |asked| - 1)
      && ReplyTo(provider, c0, asked, |asked| - 1) != Served && out == ErrorOf(ReplyTo(provider, c0, asked, |asked| - 1))
  }

  /** The trace of a whole call: how it ended, what was served, and how many refusals it went on after. */
  ghost predicate Traced<L>(provider: (nat, int, int) -> Reply, c0: nat, asked: seq<(int, int)>, served: seq<(int, int)>,
                            refusals: int, out: Fetch<L>)
  {
    forall spans :: spans == asked ==>
      && EndsWith(provider, c0, spans, out) && served == ServedOf(provider, c0, spans)
      && refusals == Refusals(provider, c0, if out.Logs? then spans else spans[..|spans| - 1])
  }

  lemma TraceEnds<L>(provider: (nat, int, int) -> Reply, c0: nat, asked: seq<(int, int)>, served: seq<(int, int)>,
                     refusals: int, span: (int, int), out: Fetch<L>)
    requires WentOn(provider, c0, asked, served, refusals)
    requires var reply := provider(c0 + |asked|, span.0, span.1); reply != Served && out == ErrorOf(reply)
    ensures Traced(provider, c0, asked + [span], served, refusals, out)
  {
    assert ServedOf(provider, c0, asked) == served;
    var more := asked + [span];
    assert more[..|asked|] == asked;
    forall i: nat | i < |asked| ensures GoesOn(ReplyTo(provider, c0, more, i)) {
      assert more[i] == asked[i] && GoesOn(ReplyTo(provider, c0, asked, i));
    }
  }

  /** So, spelled out: all replies before the last serve or refuse a range; after them the client goes on and counts each
      refusal; and a reply that is neither ends the call at once, with its error. */
  lemma TraceMeans<L>(provider: (nat, int, int) -> Reply, c0: nat, asked: seq<(int, int)>, served: seq<(int, int)>,
                      refusals: int, out: Fetch<L>, i: nat)
    requires Traced(provider, c0, asked, served, refusals, out) && i < |asked|
    ensures var reply := ReplyTo(provider, c0, asked, i);
            && (i < |asked| - 1 || out.Logs? ==> reply == Served || reply == Refused(true))
            && (reply == Unavailable ==> i == |asked| - 1 && out == DataUnavailable)
            && (reply == Refused(false) ==> i == |asked| - 1 && out == RpcError(false))
    ensures served == ServedOf(provider, c0, asked)
    ensures refusals == Refusals(provider, c0, if out.Logs? then asked else asked[..|asked| - 1])
  {
    assert EndsWith(provider, c0, asked, out);
    var reply := ReplyTo(provider, c0, asked, i);
    if i < |asked| - 1 || out.Logs? { assert GoesOn(reply); }
  }

  /** Some call for a part of the range failed with that error. */
  ghost predicate Failed<L>(provider: (nat, int, int) -> Reply, range: (int, int), out: Fetch<L>) {
    exists calls, start, end :: range.0 <= start <= end <= range.1 && FailedOn(provider, calls, start, end, out)
  }

  lemma StoppedIsFailed<L>(provider: (nat, int, int) -> Reply, calls: nat, served: seq<(int, int)>, first: int, last: int,
                           out: Fetch<L>)
    requires StoppedAfter(provider, calls, served, first, last, out)
    ensures Failed(provider, (first, last), out)
  {
  }

  /** The logs of the blocks first..last, in block order. */
  function LogsOf<L>(chain: int -> seq<L>, first: int, last: int): seq<L>
    decreases last - first + 1
  {
    if first > last then [] else LogsOf(chain, first, last - 1) + chain(last)
  }

  lemma {:induction false} LogsOfSplit<L>(chain: int -> seq<L>, first: int, mid: int, last: int)
    requires first <= mid + 1 <= last + 1
    ensures LogsOf(chain, first, last) == LogsOf(chain, first, mid) + LogsOf(chain, mid + 1, last)
    decreases last - mid
  {
    if mid < last {
      LogsOfSplit(chain, first, mid, last - 1);
    }
  }

  /** The spans follow each other without gap or overlap from block first up to, not including, block next. */
  predicate Tiles(spans: seq<(int, int)>, first: int, next: int) {
    if spans == [] then first == next
    else
      var (s, e) := spans[|spans| - 1];
      s <= e && e + 1 == next && Tiles(spans[..|spans| - 1], first, s)
  }

  lemma TilesExtend(spans: seq<(int, int)>, first: int, next: int, end: int)
    requires Tiles(spans, first, next) && next <= end
    ensures Tiles(spans + [(next, end)], first, end + 1)
  {
    assert (spans + [(next, end)])[..|spans|] == spans;
  }

  /** rows are the logs of the blocks from first up to, not including, next, fetched in the given spans. */
  ghost predicate Covered<L>(chain: int -> seq<L>, rows: seq<L>, spans: seq<(int, int)>, first: int, next: int) {
    first <= next && rows == LogsOf(chain, first, next - 1) && Tiles(spans, first, next)
  }

  lemma CoverMore<L>(chain: int -> seq<L>, rows: seq<L>, spans: seq<(int, int)>, first: int, next: int, end: int)
    requires Covered(chain, rows, spans, first, next) && next <= end
    ensures Covered(chain, rows + LogsOf(chain, next, end), spans + [(next, end)], first, end + 1)
  {
    LogsOfSplit(chain, first, next - 1, end);
    TilesExtend(spans, first, next, end);
  }

  /** What the loop has done so far: rows are the logs of the blocks before next. */
  ghost predicate Fetched<L>(provider: (nat, int, int) -> Reply, chain: int -> seq<L>, c0: nat, asked: seq<(int, int)>,
                             served: seq<(int, int)>, refusals: int, rows: seq<L>, first: int, next: int)
  {
    first <= next
    && forall spans :: spans == asked ==>
         WentOn(provider, c0, spans, served, refusals) && Covered(chain, rows, served, first, next)
  }

  lemma FetchMore<L>(provider: (nat, int, int) -> Reply, chain: int -> seq<L>, c0: nat, asked: seq<(int, int)>,
                     served: seq<(int, int)>, refusals: int, rows: seq<L>, first: int, next: int, end: int)
    requires Fetched(provider, chain, c0, asked, served, refusals, rows, first, next) && next <= end
    ensures var more, reply := asked + [(next, end)], provider(c0 + |asked|, next, end);
            && (reply == Refused(true)
                ==> Fetched(provider, chain, c0, more, served, refusals + 1, rows, first, next))
            && (reply == Served
                ==> Fetched(provider, chain, c0, more, served + [(next, end)], refusals, rows + LogsOf(chain, next, end), first,
                            end + 1))
  {
    assert WentOn(provider, c0, asked, served, refusals) && Covered(chain, rows, served, first, next);
    CoverMore(chain, rows, served, first, next, end);
    AskMore(provider, c0, asked, served, refusals, (next, end));
  }

  lemma FetchFails<L>(provider: (nat, int, int) -> Reply, chain: int -> seq<L>, c0: nat, asked: seq<(int, int)>,
                      served: seq<(int, int)>, refusals: int, rows: seq<L>, first: int, next: int, end: int, last: int,
                      out: Fetch<L>)
    requires Fetched(provider, chain, c0, asked, served, refusals, rows, first, next) && next <= end <= last
    requires var reply := provider(c0 + |asked|, next, end); reply != Served && out == ErrorOf(reply)
    ensures StoppedAfter(provider, c0 + |asked| + 1, served, first, last, out)
    ensures Traced(provider, c0, asked + [(next, end)], served, refusals, out)
  {
    assert WentOn(provider, c0, asked, served, refusals) && Covered(chain, rows, served, first, next);
    StopsHere(provider, c0 + |asked| + 1, served, first, last, next, end, out);
    TraceEnds(provider, c0, asked, served, refusals, (next, end), out);
  }

  lemma FetchEnds<L>(provider: (nat, int, int) -> Reply, chain: int -> seq<L>, c0: nat, asked: seq<(int, int)>,
                     served: seq<(int, int)>, refusals: int, rows: seq<L>, first: int, next: int, last: int)
    requires Fetched(provider, chain, c0, asked, served, refusals, rows, first, next) && next == Max(first, last + 1)
    ensures rows == LogsOf(chain, first, last) && Tiles(served, first, next)
    ensures Traced(provider, c0, asked, served, refusals, Logs(rows))
  {
    assert WentOn(provider, c0, asked, served, refusals) && Covered(chain, rows, served, first, next);
  }

  /** Every block of a tiled range lies in exactly one of the spans. */
  lemma {:induction false} TilesCoverOnce(spans: seq<(int, int)>, first: int, next: int, block: int)
    requires Tiles(spans, first, next)
    ensures first <= next
    ensures first <= block < next ==> exists i :: 0 <= i < |spans| && spans[i].0 <= block <= spans[i].1
    ensures forall i :: 0 <= i < |spans| ==> first <= spans[i].0 <= spans[i].1 < next
    ensures forall i, j :: 0 <= i < j < |spans| ==> spans[i].1 < spans[j].0
  {
    if spans != [] {
      var n := |spans| - 1;
      TilesCoverOnce(spans[..n], first, spans[n].0, block);
      if first <= block < next {
        if block < spans[n].0 {
          var i :| 0 <= i < n && spans[..n][i].0 <= block <= spans[..n][i].1;
          assert spans[i].0 <= block <= spans[i].1;
        } else {
          assert spans[n].0 <= block <= spans[n].1;
        }
      }
      forall i, j | 0 <= i < j < |spans| ensures spans[i].1 < spans[j].0 {
        assert spans[i] == spans[..n][i];
        if j < n { assert spans[j] == spans[..n][j]; }
      }
      forall i | 0 <= i < |spans| ensures first <= spans[i].0 <= spans[i].1 < next {
        if i < n { assert spans[i] == spans[..n][i]; }
      }
    }
  }

  // ---------------------------------------------------------------- how often the chunk can shrink

  /** The number of halvings from cap down to floor: the ceiling of log2(cap / floor). */
  function Halvings(cap: int, floor: int): nat
    requires floor >= 1
    decreases cap
  {
    if cap <= floor then 0 else 1 + Halvings((cap + 1) / 2, floor)
  }

  function Pow2(n: nat): (p: int)
    ensures p >= 1
  {
    if n == 0 then 1 else 2 * Pow2(n - 1)
  }

  function Doubled(x: int, n: nat): int { if n == 0 then x else 2 * Doubled(x, n - 1) }

  lemma {:induction false} DoubledIsProduct(x: int, n: nat)
    ensures Doubled(x, n) == x * Pow2(n)
  {
    if n > 0 {
      DoubledIsProduct(x, n - 1);
      TwiceProduct(x, Pow2(n - 1));
    }
  }

  lemma TwiceProduct(x: int, y: int)
    ensures x * (2 * y) == 2 * (x * y)
  {
  }

  lemma {:induction false} HalvingsReach(cap: int, floor: int)
    requires floor >= 1
    ensures cap <= Doubled(floor, Halvings(cap, floor))
    ensures Halvings(cap, floor) > 0 ==> cap > Doubled(floor, Halvings(cap, floor) - 1)
    decreases cap
  {
    if cap > floor { HalvingsReach((cap + 1) / 2, floor); }
  }

  lemma {:induction false} HalvingsIsLog2(cap: int, floor: int)
    requires floor >= 1
    ensures cap <= floor * Pow2(Halvings(cap, floor))
    ensures Halvings(cap, floor) > 0 ==> cap > floor * Pow2(Halvings(cap, floor) - 1)
  {
    HalvingsReach(cap, floor);
    DoubledIsProduct(floor, Halvings(cap, floor));
    if Halvings(cap, floor) > 0 { DoubledIsProduct(floor, Halvings(cap, floor) - 1); }
  }

  lemma {:induction false} HalvingsMonotone(a: int, b: int, floor: int)
    requires floor >= 1 && a <= b
    ensures Halvings(a, floor) <= Halvings(b, floor)
    decreases b
  {
    if a > floor {
      HalvingsMonotone((a + 1) / 2, (b + 1) / 2, floor);
    }
  }

  function Max(a: int, b: int): int { if a >= b then a else b }
  function Min(a: int, b: int): int { if a <= b then a else b }

  /** A retried refusal pays for itself: it lowers the number of halvings left. */
  lemma NarrowingPays(cap: int, learned: int, floor: int)
    requires floor >= 1 && floor < cap <= learned
    ensures Max(floor, cap / 2) < cap
    ensures Halvings(Max(floor, cap / 2), floor) + 1 <= Halvings(learned, floor)
  {
    HalvingsMonotone(cap / 2, (cap + 1) / 2, floor);
    HalvingsMonotone(cap, learned, floor);
  }

  // ---------------------------------------------------------------- the client

  class EvmRpcClient<L> {
    const maxLogRange: int
    const minLogRange: int
    var logRangeCap: Option<int>      // learned from refusals
    var calls: nat                    // JSON-RPC ids handed out so far
    ghost const firstCap: int         // the chunk size this client started its life with
    ghost var retried: nat            // refusals answered by narrowing, over the whole life

    constructor (maxRange: int, minRange: int, initialCap: Option<int>)
      ensures Valid() && retried == 0
      ensures minLogRange == Max(1, minRange) && ChunkSize() == firstCap
      ensures firstCap == (if initialCap.Some? && initialCap.value > 0 then initialCap.value else Max(minRange, maxRange))
    {
      maxLogRange := Max(minRange, maxRange);
      minLogRange := Max(1, minRange);
      logRangeCap := if initialCap.Some? && initialCap.value > 0 then initialCap else None;
      calls, retried := 0, 0;
      firstCap := if initialCap.Some? && initialCap.value > 0 then initialCap.value else Max(minRange, maxRange);
    }

    /** The widest span the client will ask for. */
    function ChunkSize(): int
      reads this
    {
      if logRangeCap.Some? then logRangeCap.value else maxLogRange
    }

    /** The lifetime budget: refusals retried so far plus halvings still possible never exceed the halvings the client
        started with, and the chunk size has never grown. */
    ghost predicate Valid()
      reads this
    {
      && minLogRange >= 1
      && (logRangeCap.Some? ==> logRangeCap.value >= 1)
      && ChunkSize() <= firstCap
      && Spent() <= Halvings(firstCap, minLogRange)
    }

    /** Refusals retried and those that may still be. */
    ghost function Spent(): int
      reads this
      requires minLogRange >= 1
    {
      retried + Halvings(ChunkSize(), minLogRange)
    }

    /** Halves the chunk after a refusal and remembers it. */
    method Narrow(cap: int) returns (smaller: int)
      requires Valid() && minLogRange < cap <= ChunkSize()
      modifies this
      ensures smaller == Max(minLogRange, cap / 2) < cap
      ensures Valid() && ChunkSize() == smaller && calls == old(calls) && retried == old(retried) + 1
      ensures Halvings(smaller, minLogRange) + 1 <= old(Halvings(ChunkSize(), minLogRange))
    {
      NarrowingPays(cap, ChunkSize(), minLogRange);
      smaller := Max(minLogRange, cap / 2);
      logRangeCap := Some(smaller);
      retried := retried + 1;
    }

    /** One request.  A refusal of a range narrows the chunk, unless it is at the floor; any other reply leaves it alone. */
    method Ask(provider: (nat, int, int) -> Reply, start: int, end: int, cap: int) returns (reply: Reply, next: int)
      requires Valid() && 1 <= cap <= ChunkSize()
      modifies this
      ensures Valid() && calls == old(calls) + 1 && reply == provider(old(calls), start, end)
      ensures next == if reply == Refused(true) && cap > minLogRange then Max(minLogRange, cap / 2) else cap
      ensures 1 <= next <= ChunkSize() <= old(ChunkSize())
      ensures ChunkSize() == if next < cap then next else old(ChunkSize())
      ensures next < cap <==> reply == Refused(true) && cap > minLogRange
      ensures retried == old(retried) + if next < cap then 1 else 0
      ensures Spent() <= old(Spent())
    {
      reply, next := provider(calls, start, end), cap;
      calls := calls + 1;
      if reply == Refused(true) && cap > minLogRange { next := Narrow(cap); }
    }

    /** One turn of the loop: the next span is served, asked for again in a smaller chunk, or the call fails. */
    method FetchNext(provider: (nat, int, int) -> Reply, chain: int -> seq<L>, cap: int, start: int, toBlock: int, rows: seq<L>,
                     ghost fromBlock: int, ghost c0: nat, ghost r0: nat, ghost asked: seq<(int, int)>,
                     ghost served: seq<(int, int)>)
        returns (failed: Option<Fetch<L>>, cap': int, start': int, rows': seq<L>, ghost asked': seq<(int, int)>,
                 ghost served': seq<(int, int)>)
      requires Valid() && 1 <= cap <= ChunkSize() && fromBlock <= start <= toBlock
      requires calls == c0 + |asked| && r0 <= retried
      requires Fetched(provider, chain, c0, asked, served, retried - r0, rows, fromBlock, start)
      modifies this
      ensures Valid() && 1 <= cap' <= ChunkSize() <= old(ChunkSize()) && Spent() <= old(Spent()) && old(retried) <= retried
      ensures if cap' < cap then ChunkSize() == cap' && retried > old(retried)
              else cap' == cap && ChunkSize() == old(ChunkSize()) && retried == old(retried)
      ensures calls == c0 + |asked'|
      ensures failed.None? ==> Fetched(provider, chain, c0, asked', served', retried - r0, rows', fromBlock, start')
      ensures failed.None? ==> start' <= toBlock + 1 && if cap' < cap then start' == start else start' > start
      ensures failed.Some? ==> StoppedAfter(provider, calls, served', fromBlock, toBlock, failed.value)
      ensures failed.Some? ==> !failed.value.Logs? && Traced(provider, c0, asked', served', retried - r0, failed.value)
      ensures failed == Some(RpcError(true)) ==> cap' <= minLogRange
    {
      var end := Min(toBlock, start + cap - 1);
      FetchMore(provider, chain, c0, asked, served, retried - r0, rows, fromBlock, start, end);
      failed, start', rows', served', asked' := None, start, rows, served, asked + [(start, end)];
      var reply;
      reply, cap' := Ask(provider, start, end, cap);
      if cap' < cap { return; } // the same block again, with the smaller chunk
      if reply != Served {
        failed := Some(ErrorOf(reply));
        FetchFails(provider, chain, c0, asked, served, retried - r0, rows, fromBlock, start, end, toBlock, failed.value);
        return;
      }
      rows', served', start' := rows + LogsOf(chain, start, end), served + [(start, end)], end + 1;
    }

    /** A chunk size below one would keep the loop from advancing for ever (see ServedCallsFinishIff).

        Whatever the provider refuses, a normal return is exactly the logs of [fromBlock, toBlock], each block asked for
        successfully once; an error is the provider's last reply, to the block next in turn.  The client goes on exactly after
        replies that serve and after refusals of a range; it narrows once for each of these, and the chunk size, which never
        grows, changes in no other way. */
    method GetLogs(provider: (nat, int, int) -> Reply, chain: int -> seq<L>, fromBlock: int, toBlock: int)
        returns (out: Fetch<L>, ghost served: seq<(int, int)>, ghost asked: seq<(int, int)>)
      requires Valid() && ChunkSize() >= 1
      modifies this
      ensures Valid() && 1 <= ChunkSize() <= old(ChunkSize())
      ensures old(retried) <= retried
      ensures retried - old(retried) + Halvings(ChunkSize(), minLogRange) <= old(Halvings(ChunkSize(), minLogRange))
      ensures out.Logs? ==> out.rows == LogsOf(chain, fromBlock, toBlock)
                              && Tiles(served, fromBlock, Max(fromBlock, toBlock + 1))
      ensures !out.Logs? ==> StoppedAfter(provider, calls, served, fromBlock, toBlock, out)
      ensures calls == old(calls) + |asked|
      ensures Traced(provider, old(calls), asked, served, retried - old(retried), out)
      ensures retried == old(retried) ==> ChunkSize() == old(ChunkSize())
      ensures out == RpcError(true) ==> ChunkSize() <= minLogRange || toBlock - fromBlock + 1 <= minLogRange
    {
      var cap := Min(ChunkSize(), Max(1, toBlock - fromBlock + 1));
      var rows: seq<L> := [];
      var start := fromBlock;
      served, asked := [], [];
      ghost var c0, r0, s0, budget := calls, retried, ChunkSize(), Spent();
      while start <= toBlock
        invariant Valid() && 1 <= cap <= ChunkSize() <= s0 && r0 <= retried && Spent() <= budget
        invariant cap == ChunkSize() || cap == Max(1, toBlock - fromBlock + 1)
        invariant retried == r0 ==> ChunkSize() == s0
        invariant fromBlock <= start <= Max(fromBlock, toBlock + 1) && calls == c0 + |asked|
        invariant Fetched(provider, chain, c0, asked, served, retried - r0, rows, fromBlock, start)
        decreases toBlock - start + 1, cap
      {
        var failed;
        failed, cap, start, rows, asked, served :=
          FetchNext(provider, chain, cap, start, toBlock, rows, fromBlock, c0, r0, asked, served);
        if failed.Some? { return failed.value, served, asked; }
      }
      out := Logs(rows);
      FetchEnds(provider, chain, c0, asked, served, retried - r0, rows, fromBlock, start, toBlock);
    }

    /** Any number of calls one after the other on one client. */
    method GetLogsRepeatedly(provider: (nat, int, int) -> Reply, chain: int -> seq<L>, ranges: seq<(int, int)>)
        returns (outs: seq<Fetch<L>>)
      requires Valid() && ChunkSize() >= 1 && retried == 0
      modifies this
      ensures |outs| == |ranges| && 1 <= ChunkSize() <= firstCap
      ensures forall i :: 0 <= i < |ranges| && outs[i].Logs? ==> outs[i].rows == LogsOf(chain, ranges[i].0, ranges[i].1)
      ensures forall i :: 0 <= i < |ranges| && !outs[i].Logs? ==> Failed(provider, ranges[i], outs[i])
      ensures retried <= Halvings(firstCap, minLogRange)
    {
      outs := [];
      for i := 0 to |ranges|
        invariant Valid() && ChunkSize() >= 1 && |outs| == i
        invariant forall k :: 0 <= k < i && outs[k].Logs? ==> outs[k].rows == LogsOf(chain, ranges[k].0, ranges[k].1)
        invariant forall k :: 0 <= k < i && !outs[k].Logs? ==> Failed(provider, ranges[k], outs[k])
      {
        var (first, last) := ranges[i];
        var out, served, _ := GetLogs(provider, chain, first, last);
        if !out.Logs? { StoppedIsFailed(provider, calls, served, first, last, out); }
        outs := outs + [out];
      }
    }
  }

  // ---------------------------------------------------------------- when it terminates at all

  /** The chunk size a fresh client starts with. */
  function StartCap(maxRange: int, minRange: int, initialCap: Option<int>): int {
    if initialCap.Some? && initialCap.value > 0 then initialCap.value else Max(minRange, maxRange)
  }

  /** Where the loop stands after n served calls at one chunk size. */
  function StartAfter(n: nat, start: int, toBlock: int, cap: int): int {
    if n == 0 then start else Min(toBlock, StartAfter(n - 1, start, toBlock, cap) + cap - 1) + 1
  }

  /** A client configured without any positive range makes no progress even when every call is served; with a positive
      chunk size, served calls alone reach the end. */
  lemma {:induction false} ProgressNeedsPositiveCap(n: nat, start: int, toBlock: int, cap: int)
    requires start <= toBlock
    ensures cap <= 0 ==> StartAfter(n, start, toBlock, cap) <= start <= toBlock
    ensures cap >= 1 ==> StartAfter(n, start, toBlock, cap) >= Min(toBlock + 1, start + n)
  {
    if n > 0 {
      ProgressNeedsPositiveCap(n - 1, start, toBlock, cap);
    }
  }

  /** So for a fresh client, served calls finish a non-empty range exactly when some configured range is positive. */
  lemma ServedCallsFinishIff(maxRange: int, minRange: int, initialCap: Option<int>, start: int, toBlock: int)
    requires start <= toBlock
    ensures var cap := Min(StartCap(maxRange, minRange, initialCap), Max(1, toBlock - start + 1));
            (exists n: nat :: StartAfter(n, start, toBlock, cap) > toBlock)
            <==> (initialCap.Some? && initialCap.value > 0) || maxRange >= 1 || minRange >= 1
  {
    var cap := Min(StartCap(maxRange, minRange, initialCap), Max(1, toBlock - start + 1));
    if cap >= 1 {
      var n := toBlock - start + 1;
      ProgressNeedsPositiveCap(n, start, toBlock, cap);
      assert StartAfter(n, start, toBlock, cap) > toBlock;
    } else {
      forall n: nat ensures StartAfter(n, start, toBlock, cap) <= toBlock {
        ProgressNeedsPositiveCap(n, start, toBlock, cap);
      }
    }
  }
}
