/**
 Shared vocabulary of the two models: optional and failing results, the
 dynamically typed values that Python assigns to an attribute, the
 numeric primitives, and the `ValueError` that every validating setter
 raises.
 */
module Values {

  /** A value that may be absent. */
  datatype Option<+T> = None | Some(value: T)

  /** A computation that either succeeds or raises; usable with `:-`. */
  datatype Result<+T, +E> = Ok(value: T) | Err(error: E) {

    predicate IsFailure() {
      Err?
    }

    function PropagateFailure<U>(): Result<U, E>
      requires Err?
    {
      Err(error)
    }

    function Extract(): T
      requires Ok?
    {
      value
    }
  }

  /**
   The run-time value handed to a setter, tagged with its Python type:
   a `str`, an `int`, a `float`, a numpy array of floats, or anything else
   (a list, `None`, a dict, ...).
   */
  datatype Value =
    | Str(text: string)
    | Int(whole: int)
    | Float(number: real)
    | Array(elements: seq<real>)
    | Other

  /**
   The floating-point primitives both models call: `np.exp`, `np.log`,
   `np.sqrt` and `scipy.stats.norm.cdf`. They are left uninterpreted; a
   lemma that needs one of their laws takes it as a hypothesis.
   */
  datatype Math = Math(exp: real -> real, log: real -> real, sqrt: real -> real, cdf: real -> real)

  /** The attributes guarded by a setter, named as in the error messages. */
  datatype Field =
    | TradeDate | ExpiryDate | Spot | Strike | Rate | Sigma
    | MarketRate1 | MarketRate2 | Position1 | Position2

  /** Why a setter refused its value. */
  datatype Fault = NotAString | BadDateFormat | NotANumber | NotAnArray

  /** The `ValueError` raised by a setter: which attribute, and why. */
  datatype ValueError = ValueError(field: Field, fault: Fault)

  /** A value the numeric setters accept: `isinstance(v, (int, float))`. */
  predicate IsNumber(v: Value) {
    v.Int? || v.Float?
  }

  /** The number an `int` or a `float` denotes. */
  function AsNumber(v: Value): (r: Option<real>)
    ensures r.Some? <==> IsNumber(v)
    ensures v.Int? ==> r == Some(v.whole as real)
    ensures v.Float? ==> r == Some(v.number)
  {
    match v
    case Int(i) => Some(i as real)
    case Float(x) => Some(x)
    case _ => None
  }

  /**
   The check shared by every numeric setter: a number passes, anything
   else raises `ValueError(field, NotANumber)`.
   */
  function CheckNumber(field: Field, v: Value): (r: Result<real, ValueError>)
    ensures r.Ok? <==> IsNumber(v)
    ensures r.Ok? ==> Some(r.value) == AsNumber(v)
    ensures r.Err? ==> r.error == ValueError(field, NotANumber)
  {
    match AsNumber(v)
    case Some(x) => Ok(x)
    case None => Err(ValueError(field, NotANumber))
  }

  /** The name under which each attribute is assigned in Python. */
  function AttributeName(f: Field): string {
    match f
    case TradeDate => "trade_date"
    case ExpiryDate => "expiry_date"
    case Spot => "S"
    case Strike => "K"
    case Rate => "r"
    case Sigma => "sigma"
    case MarketRate1 => "market_rate_1"
    case MarketRate2 => "market_rate_2"
    case Position1 => "S1"
    case Position2 => "S2"
  }

  /**
   The attribute a setter's error message names, as the messages are
   written: both messages of the `expiry_date` setter name `trade_date`.
   */
  function MessageAttributeAsWritten(f: Field): string {
    if f == ExpiryDate then "trade_date" else AttributeName(f)
  }

  /** With the messages as written, an expiry error reads exactly like a trade-date error. */
  lemma ExpiryMessageNamesTradeDate()
    ensures MessageAttributeAsWritten(ExpiryDate) == MessageAttributeAsWritten(TradeDate)
    ensures MessageAttributeAsWritten(ExpiryDate) != AttributeName(ExpiryDate)
  {
  }

  /** The attribute an error message names: the one whose setter raised. */
  function MessageAttribute(f: Field): string {
    AttributeName(f)
  }

  /** Every message names its own attribute, so the message tells the setters apart. */
  lemma MessageAttributeIdentifiesField(f: Field, g: Field)
    ensures MessageAttribute(f) == MessageAttribute(g) <==> f == g
  {
    if f != g {
      var a, b := MessageAttribute(f), MessageAttribute(g);
      assert |a| != |b| || a[0] != b[0] || a[|a| - 1] != b[|b| - 1];
    }
  }
}
