/**
 The `BlackScholes` option pricer: six validated attributes (trade and
 expiry dates, spot S, strike K, risk-free rate r, volatility sigma) and
 the quantities derived from them on every call: T, F, d1, d2, C, P.
 */
module BlackScholes {
  import opened Values
  import opened Calendar
  import opened DateParse

  /** An instance of the pricer: every attribute has passed its setter. */
  datatype Pricer = Pricer(
    tradeDate: ValidDate,
    expiryDate: ValidDate,
    spot: real,
    strike: real,
    rate: real,
    sigma: real)

  datatype DateAttribute = Trade | Expiry
  datatype NumberAttribute = S | K | R | Sig

  function DateField(a: DateAttribute): Field {
    match a
    case Trade => TradeDate
    case Expiry => ExpiryDate
  }

  function NumberField(a: NumberAttribute): Field {
    match a
    case S => Spot
    case K => Strike
    case R => Rate
    case Sig => Sigma
  }

  function DateOf(p: Pricer, a: DateAttribute): ValidDate {
    match a
    case Trade => p.tradeDate
    case Expiry => p.expiryDate
  }

  function NumberOf(p: Pricer, a: NumberAttribute): real {
    match a
    case S => p.spot
    case K => p.strike
    case R => p.rate
    case Sig => p.sigma
  }

  /** A value the date setters accept: a `str` that `strptime` parses. */
  predicate IsDateText(v: Value) {
    v.Str? && ParseDate(v.text).Some?
  }

  /**
   The check of a date setter: a non-string raises first, then a text
   `strptime` rejects; otherwise the parsed date is what gets stored.
   */
  function CheckDate(field: Field, v: Value): (r: Result<ValidDate, ValueError>)
    ensures r.Ok? <==> IsDateText(v)
    ensures r.Ok? ==> ParseDate(v.text) == Some(r.value)
    ensures !v.Str? ==> r == Err(ValueError(field, NotAString))
    ensures v.Str? && !IsDateText(v) ==> r == Err(ValueError(field, BadDateFormat))
  {
    if !v.Str? then Err(ValueError(field, NotAString))
    else match ParseDate(v.text)
      case None => Err(ValueError(field, BadDateFormat))
      case Some(d) => Ok(d)
  }

  /**
   Assigning `trade_date` or `expiry_date`: on success exactly that
   attribute changes to the parsed date; otherwise a `ValueError` naming
   the attribute is raised and the instance keeps all its values.
   */
  function SetDate(p: Pricer, a: DateAttribute, v: Value): (r: Result<Pricer, ValueError>)
    ensures r.Ok? <==> IsDateText(v)
    ensures r.Ok? ==> ParseDate(v.text) == Some(DateOf(r.value, a))
    ensures r.Ok? ==> forall b :: b != a ==> DateOf(r.value, b) == DateOf(p, b)
    ensures r.Ok? ==> forall b :: NumberOf(r.value, b) == NumberOf(p, b)
    ensures r.Err? ==> r.error.field == DateField(a)
    ensures r.Err? ==> (r.error.fault == NotAString <==> !v.Str?)
  {
    var d :- CheckDate(DateField(a), v);
    match a
    case Trade => Ok(p.(tradeDate := d))
    case Expiry => Ok(p.(expiryDate := d))
  }

  /**
   Assigning S, K, r or sigma: an `int` or `float` replaces exactly that
   attribute; anything else raises and the instance keeps all its values.
   No sign or range is checked.
   */
  function SetNumber(p: Pricer, a: NumberAttribute, v: Value): (r: Result<Pricer, ValueError>)
    ensures r.Ok? <==> IsNumber(v)
    ensures r.Ok? ==> AsNumber(v) == Some(NumberOf(r.value, a))
    ensures r.Ok? ==> forall b :: b != a ==> NumberOf(r.value, b) == NumberOf(p, b)
    ensures r.Ok? ==> forall b :: DateOf(r.value, b) == DateOf(p, b)
    ensures r.Err? ==> r.error == ValueError(NumberField(a), NotANumber)
  {
    var x :- CheckNumber(NumberField(a), v);
    match a
    case S => Ok(p.(spot := x))
    case K => Ok(p.(strike := x))
    case R => Ok(p.(rate := x))
    case Sig => Ok(p.(sigma := x))
  }

  /**
   The constructor: the six setters run in the order trade date, expiry
   date, S, K, r, sigma, and the first one that raises decides the error.
   */
  function New(trade: Value, expiry: Value, s: Value, k: Value, rate: Value, sigma: Value): (r: Result<Pricer, ValueError>)
    ensures r.Ok? <==>
      IsDateText(trade) && IsDateText(expiry) && IsNumber(s) && IsNumber(k) && IsNumber(rate) && IsNumber(sigma)
    ensures r.Ok? ==>
      && ParseDate(trade.text) == Some(r.value.tradeDate)
      && ParseDate(expiry.text) == Some(r.value.expiryDate)
      && AsNumber(s) == Some(r.value.spot)
      && AsNumber(k) == Some(r.value.strike)
      && AsNumber(rate) == Some(r.value.rate)
      && AsNumber(sigma) == Some(r.value.sigma)
    ensures !IsDateText(trade) ==> r.Err? && r.error.field == TradeDate
    ensures IsDateText(trade) && !IsDateText(expiry) ==> r.Err? && r.error.field == ExpiryDate
    ensures IsDateText(trade) && IsDateText(expiry) && !IsNumber(s) ==> r == Err(ValueError(Spot, NotANumber))
    ensures IsDateText(trade) && IsDateText(expiry) && IsNumber(s) && !IsNumber(k) ==>
      r == Err(ValueError(Strike, NotANumber))
    ensures IsDateText(trade) && IsDateText(expiry) && IsNumber(s) && IsNumber(k) && !IsNumber(rate) ==>
      r == Err(ValueError(Rate, NotANumber))
    ensures IsDateText(trade) && IsDateText(expiry) && IsNumber(s) && IsNumber(k) && IsNumber(rate) && !IsNumber(sigma) ==>
      r == Err(ValueError(Sigma, NotANumber))
  {
    var t :- CheckDate(TradeDate, trade);
    var e :- CheckDate(ExpiryDate, expiry);
    var s' :- CheckNumber(Spot, s);
    var k' :- CheckNumber(Strike, k);
    var r' :- CheckNumber(Rate, rate);
    var sigma' :- CheckNumber(Sigma, sigma);
    Ok(Pricer(t, e, s', k', r', sigma'))
  }

  // ----- Derived quantities, recomputed from the attributes on each call -----

  /** The day-count convention: a fixed 365-day year. */
  const DaysPerYear: real := 365.0

  /** T: the whole days from trade date to expiry date, in years. */
  function TimeToExpiry(p: Pricer): (t: real)
    ensures (t * DaysPerYear).Floor as real == t * DaysPerYear
  {
    (Ordinal(p.expiryDate) - Ordinal(p.tradeDate)) as real / DaysPerYear
  }

  /**
   What every derived quantity reads from the instance at the moment of the
   call: S, K, r, sigma, and T computed from the two dates. Nothing is cached,
   so each call observes the current attributes.
   */
  datatype Snapshot = Snapshot(spot: real, strike: real, rate: real, sigma: real, years: real)

  function Observe(p: Pricer): Snapshot {
    Snapshot(p.spot, p.strike, p.rate, p.sigma, TimeToExpiry(p))
  }

  /** The growth factor exp(r T). */
  function Growth(m: Math, q: Snapshot): real {
    m.exp(q.rate * q.years)
  }

  /** F: the forward price. Where exp(rT) exp(-rT) = 1, discounting it gives back the spot. */
  function Forward(m: Math, q: Snapshot): (f: real)
    ensures ExpReciprocal(m, q) ==> Discount(m, q) * f == q.spot
  {
    var f := q.spot * Growth(m, q);
    if ExpReciprocal(m, q) then
      CancelReciprocal(q.spot, Growth(m, q), Discount(m, q));
      f
    else
      f
  }

  /** sigma * sqrt(T): the divisor of d1 and the gap between d1 and d2. */
  function VolatilityTerm(m: Math, q: Snapshot): real {
    q.sigma * m.sqrt(q.years)
  }

  /** The discount factor exp(-r T). */
  function Discount(m: Math, q: Snapshot): real {
    m.exp(-(q.rate * q.years))
  }

  /**
   d1, or `None` where numpy's division by a zero strike or by a zero
   `sigma * sqrt(T)` makes it non-finite.
   */
  function D1(m: Math, q: Snapshot): (r: Option<real>)
    ensures r.Some? <==> q.strike != 0.0 && VolatilityTerm(m, q) != 0.0
    ensures r.Some? ==>
      r.value * VolatilityTerm(m, q)
      == m.log(Forward(m, q) / q.strike) + (q.sigma * q.sigma / 2.0) * q.years
  {
    if q.strike == 0.0 || VolatilityTerm(m, q) == 0.0 then None
    else
      Some((m.log(Forward(m, q) / q.strike) + (q.sigma * q.sigma / 2.0) * q.years) / VolatilityTerm(m, q))
  }

  /** d2, defined exactly where d1 is. */
  function D2(m: Math, q: Snapshot): (r: Option<real>)
    ensures r.Some? <==> q.strike != 0.0 && VolatilityTerm(m, q) != 0.0
  {
    match D1(m, q)
    case Some(d1) => Some(d1 - VolatilityTerm(m, q))
    case None => None
  }

  /** C: the call price, exp(-rT) (F N(d1) - K N(d2)), defined exactly where d1 is. */
  function Call(m: Math, q: Snapshot): (r: Option<real>)
    ensures r.Some? <==> q.strike != 0.0 && VolatilityTerm(m, q) != 0.0
  {
    match (D1(m, q), D2(m, q))
    case (Some(d1), Some(d2)) =>
      Some(Discount(m, q) * (Forward(m, q) * m.cdf(d1) - q.strike * m.cdf(d2)))
    case _ => None
  }

  /** P: the put price, obtained from the call price by parity, defined exactly where d1 is. */
  function Put(m: Math, q: Snapshot): (r: Option<real>)
    ensures r.Some? <==> q.strike != 0.0 && VolatilityTerm(m, q) != 0.0
  {
    match Call(m, q)
    case Some(c) => Some(c - q.spot + q.strike * Discount(m, q))
    case None => None
  }

  /** A snapshot with one of the numeric inputs replaced. */
  function WithNumber(q: Snapshot, a: NumberAttribute, x: real): Snapshot {
    match a
    case S => q.(spot := x)
    case K => q.(strike := x)
    case R => q.(rate := x)
    case Sig => q.(sigma := x)
  }

  // ----- Properties -----

  /**
   Nothing is cached: after assigning S, K, r or sigma, the next pricing
   call observes the new number and every other input as before.
   */
  lemma ObserveAfterSetNumber(p: Pricer, a: NumberAttribute, v: Value)
    requires IsNumber(v)
    ensures SetNumber(p, a, v).Ok?
    ensures Observe(SetNumber(p, a, v).value) == WithNumber(Observe(p), a, AsNumber(v).value)
  {
  }

  /**
   T is zero exactly when the dates coincide and has the sign of the
   calendar order: nothing stops expiry from preceding the trade date.
   */
  lemma TimeToExpirySign(p: Pricer)
    ensures TimeToExpiry(p) == 0.0 <==> p.expiryDate == p.tradeDate
    ensures TimeToExpiry(p) < 0.0 <==> Before(p.expiryDate, p.tradeDate)
    ensures TimeToExpiry(p) > 0.0 <==> Before(p.tradeDate, p.expiryDate)
  {
    OrdinalOrder(p.tradeDate, p.expiryDate);
    OrdinalOrder(p.expiryDate, p.tradeDate);
  }

  /** Moving expiry one calendar day later adds exactly one 365th of a year to T. */
  lemma TimeToExpiryNextDay(p: Pricer)
    requires NextDay(p.expiryDate).year <= 9999
    ensures TimeToExpiry(p.(expiryDate := NextDay(p.expiryDate))) == TimeToExpiry(p) + 1.0 / DaysPerYear
  {
    OrdinalNextDay(p.expiryDate);
  }

  /** d2 trails d1 by sigma sqrt(T), and the two are defined together. */
  lemma D1MinusD2(m: Math, q: Snapshot)
    ensures D2(m, q).Some? <==> D1(m, q).Some?
    ensures D1(m, q).Some? ==> D1(m, q).value - D2(m, q).value == q.sigma * m.sqrt(q.years)
  {
  }

  /**
   Put-call parity holds by construction for every instance: whenever the
   call price is defined, so is the put price, and P - C = K exp(-rT) - S.
   */
  lemma PutCallParity(m: Math, q: Snapshot)
    ensures Put(m, q).Some? <==> Call(m, q).Some?
    ensures Put(m, q).Some? ==>
      Put(m, q).value - Call(m, q).value == q.strike * Discount(m, q) - q.spot
  {
  }

  /** sqrt(T) sqrt(T) = T: the law of `sqrt` that relates d2 to its textbook form. */
  predicate SqrtSquares(m: Math, q: Snapshot) {
    m.sqrt(q.years) * m.sqrt(q.years) == q.years
  }

  /** Subtracting the volatility term once from d1 turns +sigma^2/2 T into -sigma^2/2 T. */
  lemma D2Algebra(d1: real, v: real, sigma: real, sq: real, t: real, a: real)
    requires v == sigma * sq && sq * sq == t
    requires d1 * v == a + (sigma * sigma / 2.0) * t
    ensures (d1 - v) * v == a - (sigma * sigma / 2.0) * t
  {
    calc {
      (d1 - v) * v;
      d1 * v - v * v;
      a + (sigma * sigma / 2.0) * t - (sigma * sq) * (sigma * sq);
      { assert (sigma * sq) * (sigma * sq) == (sigma * sigma) * (sq * sq); }
      a + (sigma * sigma / 2.0) * t - (sigma * sigma) * t;
    }
  }

  /**
   Where sqrt(T) squares back to T, d2 is the textbook
   (log(F / K) - sigma^2 / 2 T) / (sigma sqrt(T)).
   */
  lemma D2Textbook(m: Math, q: Snapshot)
    requires SqrtSquares(m, q)
    ensures D2(m, q).Some? ==>
      D2(m, q).value * VolatilityTerm(m, q)
      == m.log(Forward(m, q) / q.strike) - (q.sigma * q.sigma / 2.0) * q.years
  {
    if D2(m, q).Some? {
      D2Algebra(D1(m, q).value, VolatilityTerm(m, q), q.sigma, m.sqrt(q.years), q.years,
                m.log(Forward(m, q) / q.strike));
    }
  }

  /** exp(rT) exp(-rT) = 1: the one law of `exp` the price identities need. */
  predicate ExpReciprocal(m: Math, q: Snapshot) {
    Growth(m, q) * Discount(m, q) == 1.0
  }

  /** N(x) + N(-x) = 1 at the point `x`: the symmetry of the normal distribution. */
  predicate CdfSymmetric(m: Math, x: real) {
    m.cdf(x) + m.cdf(-x) == 1.0
  }

  /** Scaling by a factor and then by its reciprocal is the identity. */
  lemma CancelReciprocal(s: real, up: real, down: real)
    requires up * down == 1.0
    ensures down * (s * up) == s
  {
    calc {
      down * (s * up);
      s * (up * down);
    }
  }

  /** The call formula rearranged once the discounted forward is known to be the spot. */
  lemma CallAlgebra(disc: real, fwd: real, s: real, k: real, n1: real, n2: real)
    requires disc * fwd == s
    ensures disc * (fwd * n1 - k * n2) == s * n1 - k * disc * n2
  {
    calc {
      disc * (fwd * n1 - k * n2);
      (disc * fwd) * n1 - k * disc * n2;
    }
  }

  /** The call price is the textbook S N(d1) - K exp(-rT) N(d2). */
  lemma CallTextbook(m: Math, q: Snapshot)
    requires ExpReciprocal(m, q)
    ensures Call(m, q).Some? ==>
      Call(m, q).value == q.spot * m.cdf(D1(m, q).value) - q.strike * Discount(m, q) * m.cdf(D2(m, q).value)
  {
    if Call(m, q).Some? {
      CallAlgebra(Discount(m, q), Forward(m, q), q.spot, q.strike, m.cdf(D1(m, q).value), m.cdf(D2(m, q).value));
    }
  }

  /** The parity-derived put rearranged with the symmetry of N. */
  lemma PutAlgebra(disc: real, s: real, k: real, n1: real, n2: real, m1: real, m2: real)
    requires n1 + m1 == 1.0 && n2 + m2 == 1.0
    ensures (s * n1 - k * disc * n2) - s + k * disc == k * disc * m2 - s * m1
  {
    calc {
      (s * n1 - k * disc * n2) - s + k * disc;
      k * disc * (1.0 - n2) - s * (1.0 - n1);
    }
  }

  /**
   The put price obtained by parity is the textbook
   K exp(-rT) N(-d2) - S N(-d1), given the symmetry of N at d1 and d2.
   */
  lemma PutTextbook(m: Math, q: Snapshot)
    requires ExpReciprocal(m, q)
    requires D1(m, q).Some? ==> CdfSymmetric(m, D1(m, q).value) && CdfSymmetric(m, D2(m, q).value)
    ensures Put(m, q).Some? ==>
      Put(m, q).value == q.strike * Discount(m, q) * m.cdf(-D2(m, q).value) - q.spot * m.cdf(-D1(m, q).value)
  {
    if Put(m, q).Some? {
      CallTextbook(m, q);
      PutAlgebra(Discount(m, q), q.spot, q.strike,
                 m.cdf(D1(m, q).value), m.cdf(D2(m, q).value), m.cdf(-D1(m, q).value), m.cdf(-D2(m, q).value));
    }
  }

  /**
   A rejected expiry date: as the messages are written it is reported under
   `trade_date`; with the corrected messages, under `expiry_date`.
   */
  lemma ExpiryErrorMessage(p: Pricer, v: Value)
    ensures SetDate(p, Expiry, v).Err? <==> !IsDateText(v)
    ensures SetDate(p, Expiry, v).Err? ==>
      MessageAttributeAsWritten(SetDate(p, Expiry, v).error.field) == "trade_date"
    ensures SetDate(p, Expiry, v).Err? ==>
      MessageAttribute(SetDate(p, Expiry, v).error.field) == "expiry_date"
  {
  }

  // ----- The instance of the option tests -----

  /** The instance the option tests construct. */
  function TestPricer(): Pricer {
    Pricer(Date(2022, 11, 23), Date(2023, 5, 10), 19.0, 17.0, 0.005, 0.3)
  }

  /** The fixture of the option tests constructs with the attributes it names. */
  lemma TestFixture()
    ensures New(Str("2022-11-23"), Str("2023-05-10"), Int(19), Int(17), Float(0.005), Float(0.3)) == Ok(TestPricer())
  {
    ParseDateTestDates();
  }

  /** From 2022-11-23 to 2023-05-10 is 168 days, so T = 168/365. */
  lemma TestTimeToExpiry()
    ensures TimeToExpiry(TestPricer()) == 168.0 / 365.0
  {
    assert Ordinal(Date(2022, 11, 23)) == 738482;
    assert Ordinal(Date(2023, 5, 10)) == 738650;
  }

  /** Each invalid argument of the validation tests makes the constructor raise for that attribute. */
  lemma TestValidation()
    ensures New(Int(20221123), Str("2023-05-10"), Int(19), Int(17), Float(0.005), Float(0.3))
            == Err(ValueError(TradeDate, NotAString))
    ensures New(Str("invalid"), Str("2023-05-10"), Int(19), Int(17), Float(0.005), Float(0.3))
            == Err(ValueError(TradeDate, BadDateFormat))
    ensures New(Str("20222-11-23"), Str("2023-05-10"), Int(19), Int(17), Float(0.005), Float(0.3))
            == Err(ValueError(TradeDate, BadDateFormat))
    ensures New(Str("2022-11-23"), Str("2023-05-10"), Str("invalid"), Int(17), Float(0.005), Float(0.3))
            == Err(ValueError(Spot, NotANumber))
    ensures New(Str("2022-11-23"), Str("2023-05-10"), Int(19), Str("invalid"), Float(0.005), Float(0.3))
            == Err(ValueError(Strike, NotANumber))
    ensures New(Str("2022-11-23"), Str("2023-05-10"), Int(19), Int(17), Str("invalid"), Float(0.3))
            == Err(ValueError(Rate, NotANumber))
    ensures New(Str("2022-11-23"), Str("2023-05-10"), Int(19), Int(17), Float(0.3), Str("invalid"))
            == Err(ValueError(Sigma, NotANumber))
  {
    ParseDateTestDates();
    ParseDateRejects();
  }
}
