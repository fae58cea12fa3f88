/** Paper orders that overlap: buy and sell of PaperExecutionEngine (backend/app/execution/paper.py) test their key, and a sale
its position, before they wait for market data; the rest runs when the data is there.  So a call is two steps, between
which other calls may begin, go on or be abandoned. */
module PaperOverlap {
  import opened Common
  import opened Paper

  datatype Request = ToBuy(buy: Buy) | ToSell(sell: Sell)

  function KeyOf(req: Request): Key { if req.ToBuy? then req.buy.key else req.sell.key }

  /** The books, and the calls that wait for market data. */
  datatype State = State(book: Book, waiting: map<nat, Request>)

  datatype Step =
    | Begin(id: nat, req: Request)
    | Complete(id: nat, m: Option<Market>)
    | Abandon(id: nat)

  predicate Refused(b: Book, req: Request) { req.ToSell? && !Opened(b, req.sell) }

  function Finish(b: Book, req: Request, m: Option<Market>, cfg: Config): Book {
    match req
    case ToBuy(buy) => FinishBuy(b, buy, m, cfg)
    case ToSell(sell) => FinishSell(b, sell, m, cfg)
  }

  predicate Goes(b: Book, req: Request, m: Option<Market>, cfg: Config) {
    match req
    case ToBuy(buy) => BuyGoes(b, buy, m, cfg)
    case ToSell(sell) => SellGoes(b, sell, m, cfg)
  }

  function Apply(s: State, step: Step, cfg: Config): State {
    match step
    case Begin(id, req) =>
      if id in s.waiting || KeyOf(req) in s.book.results then s
      else if Refused(s.book, req) then s.(book := Reject(s.book, KeyOf(req), 0.0))
      else s.(waiting := s.waiting[id := req])
    case Complete(id, m) =>
      if id in s.waiting then State(Finish(s.book, s.waiting[id], m, cfg), s.waiting - {id}) else s
    case Abandon(id) => s.(waiting := s.waiting - {id})
  }

  function Exec(s: State, steps: seq<Step>, cfg: Config): State {
    if steps == [] then s else Apply(Exec(s, steps[..|steps| - 1], cfg), steps[|steps| - 1], cfg)
  }

  /** A call that is left alone is one of the undivided calls. */
  lemma UndisturbedCall(b: Book, id: nat, req: Request, m: Option<Market>, cfg: Config)
    ensures Exec(State(b, map[]), [Begin(id, req), Complete(id, m)], cfg)
         == State(Paper.Apply(b, if req.ToBuy? then Purchase(req.buy, m) else Sale(req.sell, m), cfg), map[])
  {
    ExecTwo(State(b, map[]), Begin(id, req), Complete(id, m), cfg);
  }

  lemma ExecTwo(s: State, x: Step, y: Step, cfg: Config)
    ensures Exec(s, [x, y], cfg) == Apply(Apply(s, x, cfg), y, cfg)
  {
    assert [x, y][..1] == [x] && [x][..0] == [];
    assert Exec(s, [x], cfg) == Apply(s, x, cfg);
  }

  // ---------------------------------------------------------------- when a key fills twice

  ghost predicate Once(b: Book) { forall key :: Fills(b.orders, key) <= 1 }

  /** The keys remembered are those that have filled. */
  ghost predicate Linked(b: Book) { forall key :: key in b.results <==> Fills(b.orders, key) > 0 }

  /** A call goes through although its key has filled while it waited. */
  predicate Doubles(s: State, step: Step, cfg: Config) {
    step.Complete? && step.id in s.waiting && KeyOf(s.waiting[step.id]) in s.book.results
    && Goes(s.book, s.waiting[step.id], step.m, cfg)
  }

  predicate NeverDoubles(s: State, steps: seq<Step>, cfg: Config) {
    steps == [] ||
    (var before := steps[..|steps| - 1];
     NeverDoubles(s, before, cfg) && !Doubles(Exec(s, before, cfg), steps[|steps| - 1], cfg))
  }

  lemma PlaceFills(b: Book, o: Order, key: Key)
    ensures Fills(Place(b, o).orders, key) == Fills(b.orders, key) + if o.key == key && o.status != FAILED then 1 else 0
  {
    assert (b.orders + [o])[..|b.orders|] == b.orders;
  }

  /** From b to b' an order of the key was placed, filled or failed; or none, and then nothing has filled. */
  ghost predicate Placed(b: Book, b': Book, key: Key, filled: bool) {
    (b' == b && !filled)
    || (exists o: Order :: o.key == key && (o.status != FAILED <==> filled) && b'.orders == b.orders + [o]
                           && b'.results == if filled then b.results[key := o] else b.results)
  }

  lemma PlacedNow(b: Book, b': Book, o: Order)
    requires b' == Place(b.(cash := b'.cash, positions := b'.positions), o)
    ensures Placed(b, b', o.key, o.status != FAILED)
  {
  }

  lemma BuyPlaces(b: Book, buy: Buy, m: Option<Market>, cfg: Config)
    ensures Placed(b, FinishBuy(b, buy, m, cfg), buy.key, BuyGoes(b, buy, m, cfg))
  {
    var b' := FinishBuy(b, buy, m, cfg);
    if b' != b { PlacedNow(b, b', b'.orders[|b.orders|]); }
  }

  lemma SellPlaces(b: Book, sell: Sell, m: Option<Market>, cfg: Config)
    ensures Placed(b, FinishSell(b, sell, m, cfg), sell.key, SellGoes(b, sell, m, cfg))
  {
    var b' := FinishSell(b, sell, m, cfg);
    if b' != b { PlacedNow(b, b', b'.orders[|b.orders|]); }
  }

  lemma PlacedFills(b: Book, b': Book, key: Key, filled: bool, k: Key)
    requires Placed(b, b', key, filled)
    ensures Fills(b'.orders, k) == Fills(b.orders, k) + (if filled && key == k then 1 else 0)
    ensures k in b'.results <==> k in b.results || (filled && key == k)
  {
    if b' != b || filled {
      var o: Order :| o.key == key && (o.status != FAILED <==> filled) && b'.orders == b.orders + [o]
                      && b'.results == if filled then b.results[key := o] else b.results;
      PlaceFills(b, o, k);
    }
  }

  /** What a completion adds to the fills of a key. */
  lemma FinishFills(b: Book, req: Request, m: Option<Market>, cfg: Config, key: Key)
    ensures var b' := Finish(b, req, m, cfg);
            && Fills(b'.orders, key) == Fills(b.orders, key) + (if Goes(b, req, m, cfg) && KeyOf(req) == key then 1 else 0)
            && (key in b'.results <==> key in b.results || (Goes(b, req, m, cfg) && KeyOf(req) == key))
  {
    match req {
      case ToBuy(buy) => BuyPlaces(b, buy, m, cfg);
      case ToSell(sell) => SellPlaces(b, sell, m, cfg);
    }
    PlacedFills(b, Finish(b, req, m, cfg), KeyOf(req), Goes(b, req, m, cfg), key);
  }

  lemma StepFills(s: State, step: Step, cfg: Config, key: Key)
    requires Linked(s.book)
    ensures var b, b' := s.book, Apply(s, step, cfg).book;
            && Fills(b'.orders, key) >= Fills(b.orders, key)
            && (key in b'.results <==> Fills(b'.orders, key) > 0)
            && (Fills(b.orders, key) <= 1
                ==> (Fills(b'.orders, key) <= 1 <==> !(Doubles(s, step, cfg) && KeyOf(s.waiting[step.id]) == key)))
  {
    if step.Complete? && step.id in s.waiting { FinishFills(s.book, s.waiting[step.id], step.m, cfg, key); }
    if step.Begin? { PlaceFills(s.book, Order(KeyOf(step.req), FAILED, 0.0, 0.0), key); }
  }

  lemma StepOnceIff(s: State, step: Step, cfg: Config)
    requires Linked(s.book)
    ensures var b' := Apply(s, step, cfg).book; Linked(b') && (Once(b') <==> Once(s.book) && !Doubles(s, step, cfg))
  {
    var b' := Apply(s, step, cfg).book;
    forall key
      ensures key in b'.results <==> Fills(b'.orders, key) > 0
      ensures Fills(b'.orders, key) <= 1 ==> Fills(s.book.orders, key) <= 1
    {
      StepFills(s, step, cfg, key);
    }
    if Doubles(s, step, cfg) {
      StepFills(s, step, cfg, KeyOf(s.waiting[step.id]));
    } else if Once(s.book) {
      forall key ensures Fills(b'.orders, key) <= 1 { StepFills(s, step, cfg, key); }
    }
  }

  /** In every interleaving: each key fills at most once if and only if no call goes through whose key filled meanwhile. */
  lemma {:induction false} EachKeyFillsOnceIff(s: State, steps: seq<Step>, cfg: Config)
    requires Linked(s.book) && Once(s.book)
    ensures Linked(Exec(s, steps, cfg).book)
    ensures Once(Exec(s, steps, cfg).book) <==> NeverDoubles(s, steps, cfg)
  {
    if steps != [] {
      EachKeyFillsOnceIff(s, steps[..|steps| - 1], cfg);
      StepOnceIff(Exec(s, steps[..|steps| - 1], cfg), steps[|steps| - 1], cfg);
    }
  }

  // ---------------------------------------------------------------- calls of one key that do not overlap

  /** No call of the key is under way when one begins. */
  predicate Alone(s: State, step: Step) {
    step.Begin? ==> forall id :: id in s.waiting ==> KeyOf(s.waiting[id]) != KeyOf(step.req)
  }

  predicate NoOverlap(s: State, steps: seq<Step>, cfg: Config) {
    steps == [] ||
    (var before := steps[..|steps| - 1];
     NoOverlap(s, before, cfg) && Alone(Exec(s, before, cfg), steps[|steps| - 1]))
  }

  ghost predicate Apart(s: State) {
    && (forall id :: id in s.waiting ==> KeyOf(s.waiting[id]) !in s.book.results)
    && (forall i, j :: i in s.waiting && j in s.waiting && i != j ==> KeyOf(s.waiting[i]) != KeyOf(s.waiting[j]))
  }

  lemma AloneKeepsApart(s: State, step: Step, cfg: Config)
    requires Apart(s) && Alone(s, step)
    ensures Apart(Apply(s, step, cfg)) && !Doubles(s, step, cfg)
  {
    if step.Complete? && step.id in s.waiting {
      forall id | id in s.waiting && id != step.id
        ensures KeyOf(s.waiting[id]) !in Finish(s.book, s.waiting[step.id], step.m, cfg).results
      {
        FinishFills(s.book, s.waiting[step.id], step.m, cfg, KeyOf(s.waiting[id]));
      }
    }
  }

  /** If no two calls of one key overlap, whatever else does, each key fills at most once. */
  lemma {:induction false} OnceWithoutOverlap(b: Book, steps: seq<Step>, cfg: Config)
    requires Linked(b) && Once(b) && NoOverlap(State(b, map[]), steps, cfg)
    ensures Once(Exec(State(b, map[]), steps, cfg).book) && Apart(Exec(State(b, map[]), steps, cfg))
    ensures NeverDoubles(State(b, map[]), steps, cfg)
  {
    if steps != [] {
      var s, before := State(b, map[]), steps[..|steps| - 1];
      OnceWithoutOverlap(b, before, cfg);
      AloneKeepsApart(Exec(s, before, cfg), steps[|steps| - 1], cfg);
      EachKeyFillsOnceIff(s, steps, cfg);
    }
  }

  // ---------------------------------------------------------------- calls that do

  /** A market so deep that a purchase of the amount moves the price by no more than the room there is. */
  function Deep(amount: real, room: real): Market
    requires amount > 0.0 && room > 0.0
  {
    Market(1.0, 200.0 * amount / room)
  }

  lemma DeepImpact(amount: real, room: real, fill: real)
    requires amount > 0.0 && room > 0.0 && 0.0 <= fill <= amount
    ensures var l := Deep(amount, room).liquidity; l > 0.0 && !ImpactFails(fill, l) && Impact(fill, l) <= room
  {
    var l := Deep(amount, room).liquidity;
    Quotient(200.0 * amount, room);
    MulSign(l, room);
    ImpactRange(fill, l);
    SmallImpact(fill, l, room, fill / (l / 2.0 + fill));
  }

  lemma SmallImpact(fill: real, l: real, room: real, q: real)
    requires l > 0.0 && fill >= 0.0 && room > 0.0 && 200.0 * fill <= Mul(l, room) && q == fill / (l / 2.0 + fill)
    ensures q * 100.0 <= room
  {
    var r, z := l / 2.0 + fill, room / 100.0;
    Quotient(fill, r);
    MulMono(l / 2.0, r, z);
    assert Mul(l / 2.0, z) == Mul(l, room) / 200.0;
    assert Mul(z, r) == Mul(r, z);
    CancelLe(q, z, r);
  }

  lemma CancelLe(x: real, y: real, r: real)
    requires r > 0.0 && Mul(x, r) <= Mul(y, r)
    ensures x <= y
  {
    MulSign(x - y, r);
    assert Mul(x - y, r) == Mul(x, r) - Mul(y, r);
  }

  /** A purchase that there is money for and that tolerates more than the extra slippage goes through in such a market, and
      costs no more than its amount. */
  lemma GoesInDeepMarket(b: Book, buy: Buy, cfg: Config, amount: real, room: real)
    requires ValidConfig(cfg) && 0.0 < OrZero(buy.amount) <= b.cash + TOLERANCE
    requires OrZero(buy.amount) <= amount && 0.0 < room <= buy.maxSlip - cfg.extraBps / 100.0
    ensures var m := Some(Deep(amount, room));
            BuyGoes(b, buy, m, cfg) && FinishBuy(b, buy, m, cfg).cash >= b.cash - OrZero(buy.amount)
  {
    var m := Deep(amount, room);
    DeepImpact(amount, room, 0.0);
    MulSign(m.liquidity, cfg.maxFill);
    var fill := FillAmount(OrZero(buy.amount), m, cfg);
    DeepImpact(amount, room, fill);
    BuySlip(OrZero(buy.amount), m, cfg);
  }

  /** Two purchases of one key that wait at the same time, with money for both and some tolerance, can both fill. */
  lemma OverlappingPurchasesFillTwice(s: State, i: nat, j: nat, cfg: Config) returns (m: Option<Market>)
    requires ValidConfig(cfg) && i != j && i in s.waiting && j in s.waiting
    requires s.waiting[i].ToBuy? && s.waiting[j].ToBuy? && KeyOf(s.waiting[i]) == KeyOf(s.waiting[j])
    requires var a, c := s.waiting[i].buy, s.waiting[j].buy;
             && OrZero(a.amount) > 0.0 && OrZero(c.amount) > 0.0
             && OrZero(a.amount) + OrZero(c.amount) <= s.book.cash + TOLERANCE
             && a.maxSlip > cfg.extraBps / 100.0 && c.maxSlip > cfg.extraBps / 100.0
    ensures var key := KeyOf(s.waiting[i]);
            Fills(Exec(s, [Complete(i, m), Complete(j, m)], cfg).book.orders, key) == Fills(s.book.orders, key) + 2
  {
    var a, c := s.waiting[i].buy, s.waiting[j].buy;
    var amount := OrZero(a.amount) + OrZero(c.amount);
    var room := Min(a.maxSlip, c.maxSlip) - cfg.extraBps / 100.0;
    m := Some(Deep(amount, room));
    GoesInDeepMarket(s.book, a, cfg, amount, room);
    var b := FinishBuy(s.book, a, m, cfg);
    GoesInDeepMarket(b, c, cfg, amount, room);
    FinishFills(s.book, s.waiting[i], m, cfg, a.key);
    FinishFills(b, s.waiting[j], m, cfg, a.key);
    ExecTwo(s, Complete(i, m), Complete(j, m), cfg);
  }

  // ---------------------------------------------------------------- the books in every interleaving

  /** A request that tolerates less than the whole in slippage and sells no negative quantity. */
  predicate CarefulRequest(req: Request) {
    match req
    case ToBuy(buy) => buy.maxSlip < 100.0
    case ToSell(sell) => sell.maxSlip < 100.0 && OrZero(sell.quantity) >= 0.0
  }

  /** The market shows the price at which the books are marked, and a sale asks for its own token's. */
  predicate MarketAtMark(b: Book, req: Request, m: Option<Market>, price: Key -> real) {
    match req
    case ToBuy(buy) => Usable(m) ==> m.value.price == price(buy.token)
    case ToSell(sell) => AtMark(b, sell, m, price)
  }

  predicate CarefulStep(s: State, step: Step, price: Key -> real) {
    && (step.Begin? ==> CarefulRequest(step.req))
    && (step.Complete? && step.id in s.waiting ==> MarketAtMark(s.book, s.waiting[step.id], step.m, price))
  }

  predicate CarefulRun(s: State, steps: seq<Step>, cfg: Config, price: Key -> real) {
    steps == [] ||
    (var before := steps[..|steps| - 1];
     CarefulRun(s, before, cfg, price) && CarefulStep(Exec(s, before, cfg), steps[|steps| - 1], price))
  }

  ghost predicate CarefulWaiting(s: State) { forall id :: id in s.waiting ==> CarefulRequest(s.waiting[id]) }

  lemma StepKeepsBooks(s: State, step: Step, cfg: Config, price: Key -> real)
    requires ValidConfig(cfg) && Solvent(s.book) && CarefulWaiting(s) && CarefulStep(s, step, price)
    ensures var s' := Apply(s, step, cfg);
            Solvent(s'.book) && CarefulWaiting(s') && Value(s'.book, price) <= Value(s.book, price)
  {
    if step.Complete? && step.id in s.waiting {
      match s.waiting[step.id]
      case ToBuy(buy) => CarefulPurchase(s.book, buy, step.m, cfg, price);
      case ToSell(sell) => CarefulSale(s.book, sell, step.m, cfg, price);
    }
  }

  /** Overlaps do no harm to the books: also of calls of one key, and of sales whose position another call has closed
      meanwhile. */
  lemma {:induction false} CarefulInterleavingsKeepBooks(b: Book, steps: seq<Step>, cfg: Config, price: Key -> real)
    requires ValidConfig(cfg) && Solvent(b) && CarefulRun(State(b, map[]), steps, cfg, price)
    ensures var s := Exec(State(b, map[]), steps, cfg);
            Solvent(s.book) && CarefulWaiting(s) && Value(s.book, price) <= Value(b, price)
  {
    if steps != [] {
      var s0, before := State(b, map[]), steps[..|steps| - 1];
      CarefulInterleavingsKeepBooks(b, before, cfg, price);
      StepKeepsBooks(Exec(s0, before, cfg), steps[|steps| - 1], cfg, price);
    }
  }
}
