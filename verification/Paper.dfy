/** Paper fills (PaperExecutionEngine in backend/app/execution/paper.py) on a portfolio (backend/app/portfolio/state.py), with
the price impact of backend/app/execution/math.py. */
module Paper {
  import opened Common

  /** The tolerance of the cash check, and the quantity below which a position counts as closed. */
  const TOLERANCE := 0.000000001
  const DUST := 0.000000000001

  datatype Config = Config(feeBps: real, extraBps: real, maxFill: real)

  datatype Market = Market(price: real, liquidity: real)

  datatype Position = Position(token: Key, quantity: real, open: bool)

  datatype Status = FILLED | PARTIALLY_FILLED | FAILED

  datatype Order = Order(key: Key, status: Status, quantity: real, slip: real)

  /** Positions are numbered in the order they were opened. */
  datatype Book = Book(cash: real, positions: seq<Position>, results: map<Key, Order>, orders: seq<Order>)

  datatype Buy = Buy(key: Key, token: Key, amount: Option<real>, maxSlip: real)

  datatype Sell = Sell(key: Key, token: Key, position: Option<nat>, quantity: Option<real>, maxSlip: real)

  // ---------------------------------------------------------------- the formulas

  function Mul(x: real, y: real): real { x * y }

  function Min(x: real, y: real): real { if x <= y then x else y }

  function OrZero(x: Option<real>): real { if x.Some? then x.value else 0.0 }

  /** Half the liquidity is taken to be the quote reserve of a constant-product pool; the division may fail. */
  predicate ImpactFails(amount: real, liquidity: real) { liquidity > 0.0 && liquidity / 2.0 + amount == 0.0 }

  function Impact(amount: real, liquidity: real): real
    requires !ImpactFails(amount, liquidity)
  {
    if liquidity <= 0.0 then 100.0 else amount / (liquidity / 2.0 + amount) * 100.0
  }

  function Fee(x: real, bps: real): real { Mul(x, bps) / 10000.0 }

  function Slip(impact: real, cfg: Config): real { impact + cfg.extraBps / 100.0 }

  /** A market without price or liquidity counts as no market. */
  predicate Usable(m: Option<Market>) { m.Some? && m.value.price > 0.0 && m.value.liquidity != 0.0 }

  function FillAmount(amount: real, m: Market, cfg: Config): real { Min(amount, Mul(m.liquidity, cfg.maxFill)) }

  function BuyPrice(price: real, slip: real): real { Mul(price, 1.0 + slip / 100.0) }

  function SellPrice(price: real, slip: real): real { Mul(price, 1.0 - slip / 100.0) }

  function Proceeds(qty: real, price: real, slip: real, cfg: Config): real {
    var gross := Mul(qty, SellPrice(price, slip));
    gross - Fee(gross, cfg.feeBps)
  }

  /** The bounds within which the fee, the extra slippage and the fill ratio make sense. */
  predicate ValidConfig(cfg: Config) { 0.0 <= cfg.feeBps <= 10000.0 && cfg.extraBps >= 0.0 && cfg.maxFill >= 0.0 }

  lemma MulSign(x: real, y: real)
    ensures x >= 0.0 && y >= 0.0 ==> Mul(x, y) >= 0.0
    ensures x > 0.0 && y > 0.0 ==> Mul(x, y) > 0.0
    ensures x < 0.0 && y > 0.0 ==> Mul(x, y) < 0.0
    ensures x == 0.0 || y == 0.0 ==> Mul(x, y) == 0.0
  {
  }

  lemma MulMono(x: real, y: real, z: real)
    requires x <= y && z >= 0.0
    ensures Mul(x, z) <= Mul(y, z) && Mul(z, x) <= Mul(z, y)
  {
    assert (y - x) * z >= 0.0;
  }

  lemma FeeRange(x: real, bps: real)
    requires x >= 0.0 && 0.0 <= bps <= 10000.0
    ensures 0.0 <= Fee(x, bps) <= x
  {
    MulMono(0.0, bps, x);
    MulMono(bps, 10000.0, x);
  }

  /** A trade of a positive amount moves the price, and by less than the whole. */
  lemma ImpactRange(amount: real, liquidity: real)
    requires amount >= 0.0 && liquidity > 0.0
    ensures !ImpactFails(amount, liquidity) && 0.0 <= Impact(amount, liquidity) < 100.0
  {
    var r := liquidity / 2.0 + amount;
    var q := amount / r;
    assert Mul(q, r) == amount;
    if q < 0.0 { MulSign(q, r); }
    if q >= 1.0 { MulMono(1.0, q, r); }
  }

  /** Without a positive liquidity the impact counts as 100 percent, so a purchase never gets cheaper. */
  lemma BuySlip(amount: real, m: Market, cfg: Config)
    requires ValidConfig(cfg) && amount > 0.0 && m.price > 0.0 && m.liquidity != 0.0
    ensures var fill := FillAmount(amount, m, cfg);
            && (fill >= 0.0 <==> m.liquidity > 0.0 || cfg.maxFill == 0.0)
            && !ImpactFails(fill, m.liquidity)
            && var slip := Slip(Impact(fill, m.liquidity), cfg);
               slip >= 0.0 && BuyPrice(m.price, slip) >= m.price
  {
    MulSign(m.liquidity, cfg.maxFill);
    var fill := FillAmount(amount, m, cfg);
    if m.liquidity > 0.0 { ImpactRange(fill, m.liquidity); }
    var slip := Slip(Impact(fill, m.liquidity), cfg);
    MulMono(1.0, 1.0 + slip / 100.0, m.price);
  }

  // ---------------------------------------------------------------- buying and selling

  function Place(b: Book, o: Order): Book {
    Book(b.cash, b.positions, if o.status == FAILED then b.results else b.results[o.key := o], b.orders + [o])
  }

  function Reject(b: Book, key: Key, slip: real): Book { Place(b, Order(key, FAILED, 0.0, slip)) }

  predicate CanBuy(b: Book, req: Buy, m: Option<Market>) {
    Usable(m) && 0.0 < OrZero(req.amount) <= b.cash + TOLERANCE
  }

  function BuyQuantity(fill: real, price: real, slip: real, cfg: Config): real
    requires BuyPrice(price, slip) != 0.0
  {
    (fill - Fee(fill, cfg.feeBps)) / BuyPrice(price, slip)
  }

  /** The request goes through once the market is known; none of the divisions fails. */
  predicate BuyGoes(b: Book, req: Buy, m: Option<Market>, cfg: Config) {
    CanBuy(b, req, m) &&
      var fill := FillAmount(OrZero(req.amount), m.value, cfg);
      && !ImpactFails(fill, m.value.liquidity)
      && var slip := Slip(Impact(fill, m.value.liquidity), cfg);
         slip <= req.maxSlip && BuyPrice(m.value.price, slip) != 0.0
  }

  /** A purchase from its market data on.  Where a division fails, the error escapes and nothing changes; with fee, extra
      slippage and fill ratio in their bounds none does. */
  function FinishBuy(b: Book, req: Buy, m: Option<Market>, cfg: Config): Book {
    if !CanBuy(b, req, m) then Reject(b, req.key, 0.0)
    else
      var amount, market := OrZero(req.amount), m.value;
      var fill := FillAmount(amount, market, cfg);
      if ImpactFails(fill, market.liquidity) then b
      else
        var slip := Slip(Impact(fill, market.liquidity), cfg);
        if slip > req.maxSlip then Reject(b, req.key, slip)
        else if BuyPrice(market.price, slip) == 0.0 then b
        else
          var qty := BuyQuantity(fill, market.price, slip, cfg);
          Place(b.(cash := b.cash - fill, positions := b.positions + [Position(req.token, qty, true)]),
                Order(req.key, if fill >= amount - TOLERANCE then FILLED else PARTIALLY_FILLED, qty, slip))
  }

  function Bought(b: Book, req: Buy, m: Option<Market>, cfg: Config): Book {
    if req.key in b.results then b else FinishBuy(b, req, m, cfg)
  }

  predicate HasPosition(b: Book, req: Sell) { req.position.Some? && req.position.value < |b.positions| }

  predicate Opened(b: Book, req: Sell) { HasPosition(b, req) && b.positions[req.position.value].open }

  function SellQuantity(b: Book, req: Sell): real
    requires HasPosition(b, req)
  {
    Min(OrZero(req.quantity), b.positions[req.position.value].quantity)
  }

  function Reduced(p: Position, qty: real): Position {
    if p.quantity - qty <= DUST then Position(p.token, 0.0, false) else p.(quantity := p.quantity - qty)
  }

  /** The impact of the sale divides by zero. */
  predicate SellFails(b: Book, req: Sell, m: Option<Market>)
    requires HasPosition(b, req) && Usable(m)
  {
    ImpactFails(Mul(SellQuantity(b, req), m.value.price), m.value.liquidity)
  }

  function SellSlip(b: Book, req: Sell, m: Option<Market>, cfg: Config): real
    requires HasPosition(b, req) && Usable(m) && !SellFails(b, req, m)
  {
    Slip(Impact(Mul(SellQuantity(b, req), m.value.price), m.value.liquidity), cfg)
  }

  predicate SellGoes(b: Book, req: Sell, m: Option<Market>, cfg: Config) {
    HasPosition(b, req) && Usable(m) && !SellFails(b, req, m) && SellSlip(b, req, m, cfg) <= req.maxSlip
  }

  /** A sale from its market data on; whether the position is open was tested before. */
  function FinishSell(b: Book, req: Sell, m: Option<Market>, cfg: Config): Book {
    if !HasPosition(b, req) || !Usable(m) then Reject(b, req.key, 0.0)
    else if SellFails(b, req, m) then b
    else
      var i, qty, slip := req.position.value, SellQuantity(b, req), SellSlip(b, req, m, cfg);
      if slip > req.maxSlip then Reject(b, req.key, slip)
      else
        Place(b.(cash := b.cash + Proceeds(qty, m.value.price, slip, cfg),
                 positions := b.positions[i := Reduced(b.positions[i], qty)]),
              Order(req.key, FILLED, qty, slip))
  }

  function Sold(b: Book, req: Sell, m: Option<Market>, cfg: Config): Book {
    if req.key in b.results then b
    else if !Opened(b, req) then Reject(b, req.key, 0.0)
    else FinishSell(b, req, m, cfg)
  }

  // ---------------------------------------------------------------- what the books are worth

  function Worth(positions: seq<Position>, price: Key -> real): real {
    if positions == [] then 0.0 else Mul(positions[0].quantity, price(positions[0].token)) + Worth(positions[1..], price)
  }

  function Value(b: Book, price: Key -> real): real { b.cash + Worth(b.positions, price) }

  lemma {:induction false} WorthJoin(a: seq<Position>, p: Position, price: Key -> real)
    ensures Worth(a + [p], price) == Worth(a, price) + Mul(p.quantity, price(p.token))
  {
    if a == [] {
      assert a + [p] == [p] && [p][1..] == [];
    } else {
      assert (a + [p])[1..] == a[1..] + [p];
      WorthJoin(a[1..], p, price);
    }
  }

  lemma {:induction false} WorthUpdate(a: seq<Position>, i: nat, p: Position, price: Key -> real)
    requires i < |a|
    ensures Worth(a[i := p], price)
         == Worth(a, price) - Mul(a[i].quantity, price(a[i].token)) + Mul(p.quantity, price(p.token))
  {
    if i == 0 {
      assert a[0 := p][1..] == a[1..];
    } else {
      assert a[i := p][1..] == a[1..][i - 1 := p];
      WorthUpdate(a[1..], i - 1, p, price);
    }
  }

  predicate Solvent(b: Book) {
    b.cash >= -TOLERANCE && forall p :: p in b.positions ==> p.quantity >= 0.0
  }

  // ---------------------------------------------------------------- one purchase

  lemma Quotient(x: real, y: real)
    requires y != 0.0
    ensures Mul(x / y, y) == x
  {
  }

  lemma BuyQuantityRange(fill: real, price: real, slip: real, cfg: Config)
    requires ValidConfig(cfg) && fill >= 0.0 && price > 0.0 && BuyPrice(price, slip) >= price
    ensures var qty := BuyQuantity(fill, price, slip, cfg); qty >= 0.0 && Mul(qty, price) <= fill
  {
    var paid, qty := BuyPrice(price, slip), BuyQuantity(fill, price, slip, cfg);
    FeeRange(fill, cfg.feeBps);
    Quotient(fill - Fee(fill, cfg.feeBps), paid);
    if qty < 0.0 { MulSign(qty, paid); }
    MulMono(price, paid, qty);
  }

  /** A negative amount buys a negative quantity that is worth more than it cost. */
  lemma BuyQuantityNegative(fill: real, price: real, slip: real, cfg: Config)
    requires ValidConfig(cfg) && fill < 0.0 && price > 0.0 && BuyPrice(price, slip) > price
    ensures Mul(BuyQuantity(fill, price, slip, cfg), price) > fill
  {
    var paid, qty := BuyPrice(price, slip), BuyQuantity(fill, price, slip, cfg);
    FeeRange(-fill, cfg.feeBps);
    assert Mul(-fill, cfg.feeBps) == -Mul(fill, cfg.feeBps);
    Quotient(fill - Fee(fill, cfg.feeBps), paid);
    if qty >= 0.0 {
      MulSign(qty, price);
    } else {
      assert (paid - price) * qty < 0.0;
      assert Mul(qty, paid) == Mul(qty, price) + (paid - price) * qty;
    }
  }

  /** A purchase at the marked price adds nothing to the value of the books exactly if the liquidity is positive (or fills
      are switched off); and then the books stay solvent. */
  lemma BuyKeepsBooksIff(b: Book, req: Buy, m: Option<Market>, cfg: Config, price: Key -> real)
    requires ValidConfig(cfg) && Solvent(b) && BuyGoes(b, req, m, cfg) && m.value.price == price(req.token)
    ensures Value(FinishBuy(b, req, m, cfg), price) <= Value(b, price) <==> m.value.liquidity > 0.0 || cfg.maxFill == 0.0
    ensures m.value.liquidity > 0.0 || cfg.maxFill == 0.0 ==> Solvent(FinishBuy(b, req, m, cfg))
  {
    var amount, market := OrZero(req.amount), m.value;
    BuySlip(amount, market, cfg);
    var fill := FillAmount(amount, market, cfg);
    var slip := Slip(Impact(fill, market.liquidity), cfg);
    var qty := BuyQuantity(fill, market.price, slip, cfg);
    WorthJoin(b.positions, Position(req.token, qty, true), price);
    if fill >= 0.0 {
      BuyQuantityRange(fill, market.price, slip, cfg);
    } else {
      MulMono(2.0, 1.0 + slip / 100.0, market.price);
      BuyQuantityNegative(fill, market.price, slip, cfg);
    }
  }

  // ---------------------------------------------------------------- one sale

  lemma NetSign(x: real, bps: real)
    requires 0.0 <= bps < 10000.0
    ensures x < 0.0 ==> x - Fee(x, bps) < 0.0
    ensures x == 0.0 ==> x - Fee(x, bps) == 0.0
    ensures x > 0.0 ==> x - Fee(x, bps) > 0.0
  {
    MulSign(x, 10000.0 - bps);
    if x < 0.0 { MulSign(-x, 10000.0 - bps); }
    assert Mul(x, 10000.0 - bps) == 10000.0 * x - Mul(x, bps);
    assert Mul(-x, 10000.0 - bps) == -Mul(x, 10000.0 - bps);
  }

  /** Within the whole, slippage and fee leave something between nothing and the marked value. */
  lemma ProceedsRange(qty: real, price: real, slip: real, cfg: Config)
    requires ValidConfig(cfg) && qty >= 0.0 && price > 0.0 && 0.0 <= slip <= 100.0
    ensures 0.0 <= Proceeds(qty, price, slip, cfg) <= Mul(qty, price)
  {
    var paid := SellPrice(price, slip);
    MulMono(0.0, 1.0 - slip / 100.0, price);
    MulMono(1.0 - slip / 100.0, 1.0, price);
    MulMono(0.0, paid, qty);
    MulMono(paid, price, qty);
    FeeRange(Mul(qty, paid), cfg.feeBps);
  }

  /** Beyond it, or for a negative quantity, the sign of the proceeds is that of quantity times price. */
  lemma ProceedsSign(qty: real, price: real, slip: real, cfg: Config)
    requires 0.0 <= cfg.feeBps < 10000.0 && price > 0.0
    ensures qty > 0.0 && slip > 100.0 ==> Proceeds(qty, price, slip, cfg) < 0.0
    ensures qty < 0.0 && slip < 100.0 ==> Proceeds(qty, price, slip, cfg) < 0.0
    ensures qty < 0.0 && slip >= 100.0 ==> Proceeds(qty, price, slip, cfg) >= 0.0
  {
    var rest := 1.0 - slip / 100.0;
    var paid := SellPrice(price, slip);
    MulSign(rest, price);
    assert paid == Mul(rest, price);
    MulSign(paid, qty);
    MulSign(qty, paid);
    MulSign(-qty, -paid);
    assert Mul(qty, paid) == Mul(paid, qty) == Mul(-qty, -paid);
    NetSign(Mul(qty, paid), cfg.feeBps);
  }

  predicate SellFills(b: Book, req: Sell, m: Option<Market>, cfg: Config) {
    req.key !in b.results && Opened(b, req) && SellGoes(b, req, m, cfg)
  }

  /** The position is sold at the price it is marked at. */
  predicate AtMark(b: Book, req: Sell, m: Option<Market>, price: Key -> real) {
    HasPosition(b, req) && Usable(m) ==> req.token == b.positions[req.position.value].token && m.value.price == price(req.token)
  }

  lemma SellSlipIsPositive(b: Book, req: Sell, m: Option<Market>, cfg: Config)
    requires ValidConfig(cfg) && SellGoes(b, req, m, cfg) && SellQuantity(b, req) >= 0.0
    ensures SellSlip(b, req, m, cfg) >= 0.0
  {
    MulSign(SellQuantity(b, req), m.value.price);
    if m.value.liquidity > 0.0 { ImpactRange(Mul(SellQuantity(b, req), m.value.price), m.value.liquidity); }
  }

  lemma SaleValue(b: Book, req: Sell, m: Option<Market>, cfg: Config, price: Key -> real)
    requires SellGoes(b, req, m, cfg) && AtMark(b, req, m, price)
    ensures var p, qty := b.positions[req.position.value], SellQuantity(b, req);
            Value(FinishSell(b, req, m, cfg), price)
            == Value(b, price) + Proceeds(qty, m.value.price, SellSlip(b, req, m, cfg), cfg)
               - Mul(if p.quantity - qty <= DUST then p.quantity else qty, m.value.price)
  {
    var i := req.position.value;
    var p, qty := b.positions[i], SellQuantity(b, req);
    WorthUpdate(b.positions, i, Reduced(p, qty), price);
    assert Mul(p.quantity - qty, m.value.price) == Mul(p.quantity, m.value.price) - Mul(qty, m.value.price);
    MulSign(0.0, m.value.price);
  }

  /** What a sale should do to the books: it brings in no negative cash, leaves no negative quantity, creates no value. */
  ghost predicate KeepsBooks(b: Book, b': Book, price: Key -> real) {
    b'.cash >= b.cash && (forall p :: p in b'.positions ==> p.quantity >= 0.0) && Value(b', price) <= Value(b, price)
  }

  /** A sale does that exactly if it sells nothing, or a positive quantity with a slippage of at most 100 percent. */
  lemma SellKeepsBooksIff(b: Book, req: Sell, m: Option<Market>, cfg: Config, price: Key -> real)
    requires ValidConfig(cfg) && cfg.feeBps < 10000.0 && Solvent(b)
    requires SellGoes(b, req, m, cfg) && AtMark(b, req, m, price)
    requires SellQuantity(b, req) >= 0.0 || b.positions[req.position.value].quantity - SellQuantity(b, req) > DUST
    ensures KeepsBooks(b, FinishSell(b, req, m, cfg), price)
       <==> SellQuantity(b, req) == 0.0 || (SellQuantity(b, req) > 0.0 && SellSlip(b, req, m, cfg) <= 100.0)
  {
    var qty, slip, mark := SellQuantity(b, req), SellSlip(b, req, m, cfg), m.value.price;
    var p := b.positions[req.position.value];
    SaleValue(b, req, m, cfg, price);
    ProceedsSign(qty, mark, slip, cfg);
    if qty < 0.0 {
      MulSign(qty, mark);
    } else if qty == 0.0 || slip <= 100.0 {
      GoodSale(b, req, m, cfg, price);
    }
  }

  /** The direction that runs rely on; here a fee of the whole is allowed. */
  lemma GoodSale(b: Book, req: Sell, m: Option<Market>, cfg: Config, price: Key -> real)
    requires ValidConfig(cfg) && Solvent(b) && SellGoes(b, req, m, cfg) && AtMark(b, req, m, price)
    requires SellQuantity(b, req) >= 0.0 && (SellQuantity(b, req) == 0.0 || SellSlip(b, req, m, cfg) <= 100.0)
    ensures KeepsBooks(b, FinishSell(b, req, m, cfg), price)
  {
    var qty, slip, mark := SellQuantity(b, req), SellSlip(b, req, m, cfg), m.value.price;
    var p := b.positions[req.position.value];
    assert p in b.positions;
    SaleValue(b, req, m, cfg, price);
    SellSlipIsPositive(b, req, m, cfg);
    if qty == 0.0 {
      NothingSold(mark, slip, cfg);
      MulSign(p.quantity, mark);
    } else {
      ProceedsRange(qty, mark, slip, cfg);
      MulMono(qty, p.quantity, mark);
    }
  }

  lemma NothingSold(price: real, slip: real, cfg: Config)
    ensures Proceeds(0.0, price, slip, cfg) == 0.0 && Mul(0.0, price) == 0.0
  {
    MulSign(0.0, SellPrice(price, slip));
    MulSign(0.0, cfg.feeBps);
  }

  // ---------------------------------------------------------------- what a fill costs

  lemma QuantityPaid(fill: real, paid: real, bps: real)
    requires paid != 0.0
    ensures Mul(Mul((fill - Fee(fill, bps)) / paid, paid), 10000.0) == Mul(fill, 10000.0 - bps)
  {
    Quotient(fill - Fee(fill, bps), paid);
    assert Mul(fill, 10000.0 - bps) == 10000.0 * fill - Mul(fill, bps);
  }

  lemma ImpactOfPool(amount: real, liquidity: real)
    requires liquidity > 0.0 && !ImpactFails(amount, liquidity)
    ensures Mul(Impact(amount, liquidity), liquidity / 2.0 + amount) == 100.0 * amount
  {
    Quotient(amount, liquidity / 2.0 + amount);
    assert Mul(amount / (liquidity / 2.0 + amount) * 100.0, liquidity / 2.0 + amount)
        == 100.0 * Mul(amount / (liquidity / 2.0 + amount), liquidity / 2.0 + amount);
  }

  /** What a purchase that goes through costs: it spends the amount asked for, or the part of the pool that a fill may take;
      the fee comes off that, and the rest buys tokens at the market price plus the slippage; the slippage is what the
      constant-product formula says plus the extra, and no more than the caller tolerates. */
  lemma PurchasePays(b: Book, req: Buy, m: Option<Market>, cfg: Config)
    requires BuyGoes(b, req, m, cfg)
    ensures var b', amount, pool := FinishBuy(b, req, m, cfg), OrZero(req.amount), m.value;
            var o, spent, most := b'.orders[|b'.orders| - 1], b.cash - b'.cash, Mul(pool.liquidity, cfg.maxFill);
            && pool.price > 0.0 && pool.liquidity != 0.0 && 0.0 < amount <= b.cash + TOLERANCE
            && spent == (if amount <= most then amount else most)
            && b'.positions == b.positions + [Position(req.token, o.quantity, true)] && b'.orders == b.orders + [o]
            && Mul(Mul(o.quantity, Mul(pool.price, 1.0 + o.slip / 100.0)), 10000.0) == Mul(spent, 10000.0 - cfg.feeBps)
            && o.slip <= req.maxSlip
            && (pool.liquidity > 0.0
                ==> Mul(o.slip - cfg.extraBps / 100.0, pool.liquidity / 2.0 + spent) == 100.0 * spent)
            && (pool.liquidity <= 0.0 ==> o.slip == 100.0 + cfg.extraBps / 100.0)
            && o.status == (if spent >= amount - TOLERANCE then FILLED else PARTIALLY_FILLED)
  {
    var fill := FillAmount(OrZero(req.amount), m.value, cfg);
    var slip := Slip(Impact(fill, m.value.liquidity), cfg);
    QuantityPaid(fill, BuyPrice(m.value.price, slip), cfg.feeBps);
    if m.value.liquidity > 0.0 { ImpactOfPool(fill, m.value.liquidity); }
  }

  lemma NetOfFee(x: real, bps: real)
    ensures (x - Fee(x, bps)) * 10000.0 == Mul(x, 10000.0 - bps)
  {
    assert Mul(x, 10000.0 - bps) == 10000.0 * x - Mul(x, bps);
  }

  /** What a sale that goes through brings in: it sells what is asked for or what there is, at the market price less the
      slippage, and the fee comes off that; what is left of the position stays open unless it is dust. */
  lemma SaleBringsIn(b: Book, req: Sell, m: Option<Market>, cfg: Config)
    requires SellGoes(b, req, m, cfg)
    ensures var b', i, pool := FinishSell(b, req, m, cfg), req.position.value, m.value;
            var o, held := b'.orders[|b'.orders| - 1], b.positions[i].quantity;
            var sold := o.quantity;
            && pool.price > 0.0 && pool.liquidity != 0.0
            && sold == (if OrZero(req.quantity) <= held then OrZero(req.quantity) else held)
            && b'.orders == b.orders + [o] && o.status == FILLED && o.slip <= req.maxSlip
            && (b'.cash - b.cash) * 10000.0 == Mul(Mul(sold, Mul(pool.price, 1.0 - o.slip / 100.0)), 10000.0 - cfg.feeBps)
            && (pool.liquidity > 0.0
                ==> Mul(o.slip - cfg.extraBps / 100.0, pool.liquidity / 2.0 + Mul(sold, pool.price))
                    == 100.0 * Mul(sold, pool.price))
            && (pool.liquidity <= 0.0 ==> o.slip == 100.0 + cfg.extraBps / 100.0)
            && b'.positions == b.positions[i := if held - sold <= DUST then Position(b.positions[i].token, 0.0, false)
                                                else b.positions[i].(quantity := held - sold)]
  {
    var qty, slip := SellQuantity(b, req), SellSlip(b, req, m, cfg);
    NetOfFee(Mul(qty, SellPrice(m.value.price, slip)), cfg.feeBps);
    if m.value.liquidity > 0.0 { ImpactOfPool(Mul(qty, m.value.price), m.value.liquidity); }
  }

  // ---------------------------------------------------------------- runs

  datatype Call = Purchase(buy: Buy, m: Option<Market>) | Sale(sell: Sell, m: Option<Market>)

  function Apply(b: Book, call: Call, cfg: Config): Book {
    match call
    case Purchase(req, m) => Bought(b, req, m, cfg)
    case Sale(req, m) => Sold(b, req, m, cfg)
  }

  function Run(b: Book, calls: seq<Call>, cfg: Config): Book
    decreases calls
  {
    if calls == [] then b else Run(Apply(b, calls[0], cfg), calls[1..], cfg)
  }

  /** The market shows the price at which the books are marked, and a sale asks for its own token's. */
  predicate AtMarket(b: Book, call: Call, price: Key -> real) {
    match call
    case Purchase(req, m) => Usable(m) ==> m.value.price == price(req.token)
    case Sale(req, m) => AtMark(b, req, m, price)
  }

  ghost predicate RunAtMarket(b: Book, calls: seq<Call>, cfg: Config, price: Key -> real)
    decreases calls
  {
    calls != [] ==> AtMarket(b, calls[0], price) && RunAtMarket(Apply(b, calls[0], cfg), calls[1..], cfg, price)
  }

  /** A caller that tolerates less than the whole in slippage and sells no negative quantity. */
  predicate Careful(call: Call) {
    match call
    case Purchase(req, m) => req.maxSlip < 100.0
    case Sale(req, m) => req.maxSlip < 100.0 && OrZero(req.quantity) >= 0.0
  }

  lemma CarefulPurchase(b: Book, req: Buy, m: Option<Market>, cfg: Config, price: Key -> real)
    requires ValidConfig(cfg) && Solvent(b) && (Usable(m) ==> m.value.price == price(req.token)) && req.maxSlip < 100.0
    ensures var b' := FinishBuy(b, req, m, cfg); Solvent(b') && Value(b', price) <= Value(b, price)
  {
    if CanBuy(b, req, m) { BuySlip(OrZero(req.amount), m.value, cfg); }
    if BuyGoes(b, req, m, cfg) { BuyKeepsBooksIff(b, req, m, cfg, price); }
  }

  lemma CarefulSale(b: Book, req: Sell, m: Option<Market>, cfg: Config, price: Key -> real)
    requires ValidConfig(cfg) && Solvent(b) && AtMark(b, req, m, price) && req.maxSlip < 100.0 && OrZero(req.quantity) >= 0.0
    ensures var b' := FinishSell(b, req, m, cfg); Solvent(b') && Value(b', price) <= Value(b, price)
  {
    if SellGoes(b, req, m, cfg) {
      assert b.positions[req.position.value] in b.positions;
      GoodSale(b, req, m, cfg, price);
    }
  }

  lemma CarefulCallKeepsBooks(b: Book, call: Call, cfg: Config, price: Key -> real)
    requires ValidConfig(cfg) && Solvent(b) && AtMarket(b, call, price) && Careful(call)
    ensures Solvent(Apply(b, call, cfg)) && Value(Apply(b, call, cfg), price) <= Value(b, price)
  {
    match call
    case Purchase(req, m) => CarefulPurchase(b, req, m, cfg, price);
    case Sale(req, m) => CarefulSale(b, req, m, cfg, price);
  }

  /** In any run of careful calls at an unchanged market price, with whatever liquidity, fills, rejections and replays: cash
      stays above minus the tolerance, no quantity gets negative, and cash plus marked holdings never increases. */
  lemma {:induction false} CarefulRunsKeepBooks(b: Book, calls: seq<Call>, cfg: Config, price: Key -> real)
    requires ValidConfig(cfg) && Solvent(b) && RunAtMarket(b, calls, cfg, price)
    requires forall i :: 0 <= i < |calls| ==> Careful(calls[i])
    ensures Solvent(Run(b, calls, cfg)) && Value(Run(b, calls, cfg), price) <= Value(b, price)
    decreases calls
  {
    if calls != [] {
      CarefulCallKeepsBooks(b, calls[0], cfg, price);
      CarefulRunsKeepBooks(Apply(b, calls[0], cfg), calls[1..], cfg, price);
    }
  }

  /** Such calls exist: with the settings of the runner, a caller that accepts 101 percent sells a thousand tokens into a pool
      of one dollar and pays for it. */
  lemma CarelessSaleCostsCash(key: Key, token: Key)
    ensures var cfg := Config(30.0, 10.0, 0.02);
            var b := Book(0.0, [Position(token, 1000.0, true)], map[], []);
            var req, m := Sell(key, token, Some(0), Some(1000.0), 101.0), Some(Market(1.0, 1.0));
            SellFills(b, req, m, cfg) && Sold(b, req, m, cfg).cash < 0.0 && !Solvent(Sold(b, req, m, cfg))
  {
    var cfg := Config(30.0, 10.0, 0.02);
    var b := Book(0.0, [Position(token, 1000.0, true)], map[], []);
    var req, m := Sell(key, token, Some(0), Some(1000.0), 101.0), Some(Market(1.0, 1.0));
    assert Mul(1000.0, 1.0) == 1000.0;
    var slip := 1000.0 / 1000.5 * 100.0 + 0.1;
    assert SellSlip(b, req, m, cfg) == slip && 100.0 < slip < 101.0;
    assert SellPrice(1.0, slip) == 1.0 - slip / 100.0;
    var gross := Mul(1000.0, SellPrice(1.0, slip));
    assert gross == 1000.0 - 10.0 * slip;
    assert Fee(gross, 30.0) == gross * 30.0 / 10000.0;
  }

  // ---------------------------------------------------------------- each key once

  function Fills(orders: seq<Order>, key: Key): nat {
    if orders == [] then 0
    else Fills(orders[..|orders| - 1], key)
         + if orders[|orders| - 1].key == key && orders[|orders| - 1].status != FAILED then 1 else 0
  }

  ghost predicate Recorded(b: Book) {
    forall key :: Fills(b.orders, key) == if key in b.results then 1 else 0
  }

  lemma PlaceRecords(b: Book, o: Order)
    requires Recorded(b) && (o.status != FAILED ==> o.key !in b.results)
    ensures Recorded(Place(b, o))
  {
    assert (b.orders + [o])[..|b.orders|] == b.orders;
  }

  lemma CallRecords(b: Book, call: Call, cfg: Config)
    requires Recorded(b)
    ensures Recorded(Apply(b, call, cfg))
  {
    var key := if call.Purchase? then call.buy.key else call.sell.key;
    var b' := Apply(b, call, cfg);
    if b' != b {
      var o := b'.orders[|b.orders|];
      PlaceRecords(b.(cash := b'.cash, positions := b'.positions), o);
    }
  }

  /** Whatever is called, one call after the other, each idempotency key fills at most once. */
  lemma {:induction false} EachKeyFillsOnce(b: Book, calls: seq<Call>, cfg: Config, key: Key)
    requires Recorded(b)
    ensures Fills(Run(b, calls, cfg).orders, key) <= 1
    ensures Recorded(Run(b, calls, cfg))
    decreases calls
  {
    if calls != [] {
      CallRecords(b, calls[0], cfg);
      EachKeyFillsOnce(Apply(b, calls[0], cfg), calls[1..], cfg, key);
    }
  }

  /** A call whose key has filled changes nothing, whatever it asks for now. */
  lemma FilledKeysAreReplayed(b: Book, first: Call, again: Call, cfg: Config)
    requires var b' := Apply(b, first, cfg); |b'.orders| > |b.orders| && b'.orders[|b.orders|].status != FAILED
    requires (if first.Purchase? then first.buy.key else first.sell.key)
          == (if again.Purchase? then again.buy.key else again.sell.key)
    ensures Apply(Apply(b, first, cfg), again, cfg) == Apply(b, first, cfg)
  {
  }

  // ---------------------------------------------------------------- the program

  /** What a call gives back: an order, placed now or earlier, or an exception. */
  datatype Answer = Given(order: Order) | NotApproved | DivisionFailed

  class PaperEngine {
    const cfg: Config
    var cash: real
    var positions: seq<Position>
    var results: map<Key, Order>
    var orders: seq<Order>

    ghost function Books(): Book
      reads this
    {
      Book(cash, positions, results, orders)
    }

    constructor (cfg: Config, cash: real)
      ensures this.cfg == cfg && Books() == Book(cash, [], map[], []) && Recorded(Books())
    {
      this.cfg, this.cash, positions, results, orders := cfg, cash, [], map[], [];
    }

    method Result(key: Key, status: Status, quantity: real, slip: real) returns (o: Order)
      modifies this`results, this`orders
      ensures o == Order(key, status, quantity, slip) && Books() == Place(old(Books()), o)
    {
      o := Order(key, status, quantity, slip);
      orders := orders + [o];
      if status != FAILED { results := results[key := o]; }
    }

    /** approved: the approval is genuine and is for a paper purchase. */
    method BuyToken(req: Buy, m: Option<Market>, approved: bool) returns (answer: Answer)
      modifies this
      ensures approved ==> Books() == Bought(old(Books()), req, m, cfg)
      ensures approved && answer.Given?
              ==> (req.key in old(results) || |orders| == |old(orders)| + 1)
                  && answer.order == if req.key in old(results) then old(results)[req.key] else orders[|old(orders)|]
      ensures approved && !answer.Given? ==> Books() == old(Books()) && answer == DivisionFailed && !ValidConfig(cfg)
      ensures !approved ==> Books() == old(Books()) && answer == NotApproved
    {
      if !approved { return NotApproved; }
      if req.key in results { return Given(results[req.key]); }
      var amount := OrZero(req.amount);
      var o;
      if !Usable(m) || amount <= 0.0 || amount > cash + TOLERANCE {
        o := Result(req.key, FAILED, 0.0, 0.0);
        return Given(o);
      }
      if ValidConfig(cfg) { BuySlip(amount, m.value, cfg); }
      var fill := FillAmount(amount, m.value, cfg);
      if ImpactFails(fill, m.value.liquidity) { return DivisionFailed; }
      var slip := Slip(Impact(fill, m.value.liquidity), cfg);
      if slip > req.maxSlip {
        o := Result(req.key, FAILED, 0.0, slip);
        return Given(o);
      }
      if BuyPrice(m.value.price, slip) == 0.0 { return DivisionFailed; }
      var qty := BuyQuantity(fill, m.value.price, slip, cfg);
      cash := cash - fill;
      positions := positions + [Position(req.token, qty, true)];
      o := Result(req.key, if fill >= amount - TOLERANCE then FILLED else PARTIALLY_FILLED, qty, slip);
      answer := Given(o);
    }

    method SellToken(req: Sell, m: Option<Market>, approved: bool) returns (answer: Answer)
      modifies this
      ensures approved ==> Books() == Sold(old(Books()), req, m, cfg)
      ensures approved && answer.Given?
              ==> (req.key in old(results) || |orders| == |old(orders)| + 1)
                  && answer.order == if req.key in old(results) then old(results)[req.key] else orders[|old(orders)|]
      ensures approved && !answer.Given? ==> Books() == old(Books()) && answer == DivisionFailed
      ensures !approved ==> Books() == old(Books()) && answer == NotApproved
    {
      if !approved { return NotApproved; }
      if req.key in results { return Given(results[req.key]); }
      var o;
      if req.position.None? || req.position.value >= |positions| || !positions[req.position.value].open || !Usable(m) {
        o := Result(req.key, FAILED, 0.0, 0.0);
        return Given(o);
      }
      var p := positions[req.position.value];
      var qty := Min(OrZero(req.quantity), p.quantity);
      var notional := Mul(qty, m.value.price);
      if ImpactFails(notional, m.value.liquidity) { return DivisionFailed; }
      var slip := Slip(Impact(notional, m.value.liquidity), cfg);
      if slip > req.maxSlip {
        o := Result(req.key, FAILED, 0.0, slip);
        return Given(o);
      }
      cash := cash + Proceeds(qty, m.value.price, slip, cfg);
      positions := positions[req.position.value := Reduced(p, qty)];
      o := Result(req.key, FILLED, qty, slip);
      answer := Given(o);
    }
  }
}
