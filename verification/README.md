# Black-Scholes pricer and historical VaR, modelled in Dafny

This project models `solutions.py` of a small trade-risk exercise. The file has two independent classes.

- **`BlackScholes`** is a European option pricer. It has six validated attributes: the trade date, the expiry date, the spot `S`, the strike `K`, the risk-free rate `r` and the volatility `sigma`. From them it derives, on every call:
  - the time to expiry `T`, which counts whole days between the two dates on a fixed 365-day year;
  - the forward price `F`;
  - `d1` and `d2`;
  - the call price `C`;
  - the put price `P`, which is obtained from `C` by put-call parity.
- **`VaR`** is a one-day historical-simulation Value-at-Risk over two currencies. It has two validated market-rate series, most recent day first, and two position sizes. It computes:
  - a per-currency PnL vector from consecutive-day returns;
  - their day-by-day sum, sorted ascending (`total_pnl`);
  - the fixed interpolation `0.4 * total_pnl[1] + 0.6 * total_pnl[2]` (`var_1d`).

The modules are:

- `Values`
  - An `Option` type and a `Result` type usable with `:-`.
  - The dynamically typed `Value` handed to a setter.
  - The `ValueError` every setter raises.
  - `Math`: numpy's `exp`, `log`, `sqrt` and scipy's `norm.cdf`. These are uninterpreted `real -> real` functions passed as a parameter. A lemma that needs one of their laws takes the law as a hypothesis (`ExpReciprocal`, `CdfSymmetric`, `ExpUndoesLog`).
- `Calendar`
  - The proleptic Gregorian calendar of Python's `datetime`.
  - The day ordinal whose differences give `timedelta.days`.
- `DateParse`
  - `datetime.strptime(text, "%Y-%m-%d")`, with the directive patterns of Python's `_strptime`:
    - the year is exactly four ASCII digits;
    - the month may have one or two digits;
    - the day may have one or two digits, or a space followed by one digit.
  - The whole text must be consumed, and the parsed date must exist.
  - `ParseDateExactly` characterises the accepted texts as exactly the renderings `Format(d, ms, ds)` of valid dates.
- `BlackScholes`
  - The validated setters and constructor as functions over `Result`.
  - `T`, and `F`, `d1`, `d2`, `C`, `P` over a `Snapshot` of the attributes.
  - Parity and the textbook forms of `C` and `P`.
- `Sorting`
  - `np.sort`, modelled as insertion sort.
  - Uniqueness of the ascending permutation.
- `HistoricalVar`
  - The validated setters and constructor.
  - `pnl_vector`, `total_pnl` and `var_1d`.

Python's silent numeric failures are explicit:

- **Division by zero.** numpy's division by a zero strike or a zero `sigma * sqrt(T)` yields `inf`/`nan` instead of raising. `D1` and `D2` return `None` exactly there. `Call` and `Put` are `None` on the same inputs, which is coarser than numpy (see "## Left out").
- **Out-of-range index.** The `IndexError` of `var_1d` on a short vector is an `Err`, carrying the index that fails first.

## Model

| member | source | states |
|---|---|---|
| Calendar.DaysInMonth | solutions.py:41 | month lengths as `datetime` validates a day: 28 to 31, and 29 exactly for February of a Gregorian leap year |
| Calendar.Ordinal | solutions.py:115 | the day number behind `timedelta.days`: a valid date's ordinal lies within the days of its own year, after all earlier years |
| Calendar.OrdinalNextDay | solutions.py:115 | the day ordinal behind `(expiry_date - trade_date).days` advances by exactly one from a date to the next calendar day, across month and year ends |
| Calendar.OrdinalOrder | solutions.py:115 | ordinals order valid dates exactly as the calendar does, and two dates share an ordinal only if they are equal, so the day difference is zero only for the same date |
| Calendar.NextDay | solutions.py:115 | the following calendar day is later in calendar order and valid while the year stays within 9999 |
| DateParse.ParseYear | solutions.py:41 | `%Y` accepts exactly four ASCII digits and yields a year in 0..9999 |
| DateParse.ParseMonth | solutions.py:41 | `%m` yields a month in 1..12 |
| DateParse.ParseDay | solutions.py:41 | `%d` yields a day in 1..31 |
| DateParse.ParseDate | solutions.py:40-43 | whatever `strptime` accepts is a date `datetime` can hold: year 1..9999 and a day that exists in its month |
| DateParse.ParseFormat | solutions.py:40-43 | every rendering of a valid date parses back to that date: padded or bare month, padded, bare or space-padded day |
| DateParse.ParseDateSound | solutions.py:40-43 | every accepted text is a rendering, in some style, of the date it parses to |
| DateParse.ParseDateExactly | solutions.py:40-43 | a text parses to `d` if and only if `d` is a valid date and the text is one of its renderings |
| DateParse.ParseDateTestDates | test_blackscholes.py:14-15 | the fixture dates parse to 2022-11-23 and 2023-05-10 |
| DateParse.ParseDateShortFields | solutions.py:41 | a one-digit month and a space-padded day are accepted |
| DateParse.ParseDateRejects | test_blackscholes.py:31-35 | `'invalid'`, `'20222-11-23'`, a 29 February in a common year and year 0 are rejected |
| Values.AsNumber | solutions.py:73 | `isinstance(value, (int, float))` holds exactly for an int or a float, and the number read is the value's own |
| Values.CheckNumber | solutions.py:73-74 | a number passes unchanged; anything else raises a `ValueError` for that attribute |
| BlackScholes.CheckDate | solutions.py:37-43 | a non-string raises first; then a text that `strptime` rejects raises; otherwise the parsed date is the result |
| BlackScholes.SetDate | solutions.py:34-63 | assigning `trade_date` or `expiry_date` succeeds if and only if the value is a parsable string; it stores the parsed date, leaves every other attribute as it was, and otherwise raises for that attribute, distinguishing a non-string from a bad format |
| BlackScholes.SetNumber | solutions.py:70-111 | assigning S, K, r or sigma succeeds if and only if the value is an int or a float; it stores that number and leaves everything else unchanged; no sign or range is checked |
| BlackScholes.New | solutions.py:9-27 | the constructor succeeds if and only if all six values are acceptable, and then stores them; otherwise the first failing setter, in the order trade date, expiry date, S, K, r, sigma, decides the error |
| BlackScholes.ObserveAfterSetNumber | solutions.py:113-135 | nothing is cached: after a numeric assignment, pricing observes the new number and all other inputs unchanged |
| BlackScholes.TimeToExpiry | solutions.py:113-115 | T is a whole number of days divided by 365 |
| BlackScholes.TimeToExpirySign | solutions.py:113-115 | T is zero exactly when the dates coincide, negative exactly when expiry precedes the trade date, and positive exactly when it follows it |
| BlackScholes.TimeToExpiryNextDay | solutions.py:113-115 | moving expiry one calendar day later adds exactly 1/365 to T |
| BlackScholes.D1 | solutions.py:121-123 | d1 is defined exactly when K and `sigma * sqrt(T)` are nonzero, and then d1 times `sigma * sqrt(T)` equals `log(F / K) + sigma^2 / 2 * T` |
| BlackScholes.D2 | solutions.py:125-127 | d2 is defined exactly when K and `sigma * sqrt(T)` are nonzero |
| BlackScholes.D2Textbook | solutions.py:125-127 | where sqrt(T) sqrt(T) = T, d2 times `sigma * sqrt(T)` equals `log(F / K) - sigma^2 / 2 * T`, the textbook d2 |
| BlackScholes.D1MinusD2 | solutions.py:125-127 | d2 is defined exactly when d1 is, and d1 - d2 = sigma sqrt(T) |
| BlackScholes.PutCallParity | solutions.py:133-135 | P is defined exactly when C is, and P - C = K exp(-rT) - S |
| BlackScholes.Forward | solutions.py:117-119 | where exp(rT) exp(-rT) = 1, the discounted forward price is the spot |
| BlackScholes.Call | solutions.py:129-131 | C is defined exactly when K and `sigma * sqrt(T)` are nonzero |
| BlackScholes.Put | solutions.py:133-135 | P is defined exactly when K and `sigma * sqrt(T)` are nonzero |
| BlackScholes.CallTextbook | solutions.py:129-131 | where exp(rT) exp(-rT) = 1, the call price is S N(d1) - K exp(-rT) N(d2) |
| BlackScholes.PutTextbook | solutions.py:133-135 | where additionally N(x) + N(-x) = 1 at d1 and d2, the put price is K exp(-rT) N(-d2) - S N(-d1) |
| BlackScholes.ExpiryErrorMessage | solutions.py:52-61 | the `expiry_date` setter fails exactly on an unparsable value; as written its error names `trade_date`, corrected it names `expiry_date` |
| BlackScholes.TestFixture | test_blackscholes.py:9-22 | the fixture's constructor call succeeds and stores the two dates and the numbers 19, 17, 0.005 and 0.3 |
| BlackScholes.TestTimeToExpiry | test_blackscholes.py:14-15 | from 2022-11-23 to 2023-05-10 is 168 days, so T = 168/365 |
| BlackScholes.TestValidation | test_blackscholes.py:24-51 | each invalid argument of the validation tests makes the constructor raise for that attribute |
| Sorting.Insert | solutions.py:229 | insertion keeps a sequence sorted and adds exactly one copy of the element |
| Sorting.Sort | solutions.py:229 | `np.sort` returns an ascending permutation of its input |
| Sorting.SortedUnique | solutions.py:229 | two ascending sequences with the same elements are equal |
| Sorting.SortDependsOnlyOnElements | solutions.py:229 | sorting depends only on the multiset of the input |
| HistoricalVar.CheckRates | solutions.py:168-169 | `isinstance(value, np.ndarray)`: an array passes with its rates, anything else raises |
| HistoricalVar.SetRates | solutions.py:165-182 | assigning a market-rate series succeeds if and only if the value is a numpy array; it stores exactly those rates and leaves everything else unchanged; a plain list raises |
| HistoricalVar.SetPosition | solutions.py:189-206 | assigning S1 or S2 succeeds if and only if the value is an int or a float; it stores that number and leaves everything else unchanged |
| HistoricalVar.New | solutions.py:145-158 | the constructor succeeds if and only if both series are arrays and both positions are numbers; otherwise the first failing setter, in the order market_rate_1, market_rate_2, S1, S2, decides the error |
| HistoricalVar.PnlVector | solutions.py:208-219 | one scenario per pair of consecutive days: n rates give n - 1 entries, none when n is 0 or 1, and entry i is `(exp(log(r[i] / r[i+1])) - 1) * S` |
| HistoricalVar.ScenarioPnl | solutions.py:219 | one scenario `(exp(log(today / previous)) - 1) * S`; where exp undoes log on positive reals, it is the simple return `(today / previous - 1) * S` |
| HistoricalVar.PnlVectorSimpleReturn | solutions.py:208-219 | for positive rates, every entry of the PnL vector is `(r[i] / r[i+1] - 1) * S` |
| HistoricalVar.PnlVectorCompounds | solutions.py:208-219 | for positive rates, the per-unit scenario returns compound to the return over the whole series, `r[0] / r[n-1]`, so consecutive days are covered without gap or overlap |
| HistoricalVar.Add | solutions.py:229 | the elementwise sum of two equally long vectors |
| HistoricalVar.Scenarios | solutions.py:229 | the combined scenarios: one per pair of consecutive days, entry i being the sum of the two currencies' scenarios for rates i and i + 1 |
| HistoricalVar.TotalPnl | solutions.py:221-229 | `total_pnl` is sorted ascending and is a permutation of the day-by-day sums of the two PnL vectors |
| HistoricalVar.Interpolate | solutions.py:239 | `0.4 t[1] + 0.6 t[2]` succeeds if and only if t has more than two entries; a shorter vector fails at index 1 first, then at index 2; on a sorted vector the result lies between t[1] and t[2], at or above the two smallest entries and at or below every entry from the third on |
| HistoricalVar.Var1d | solutions.py:231-239 | `var_1d` is defined exactly when each series has at least four rates; it then lies between the second and third smallest combined scenarios; otherwise it fails at index 1 or 2 of `total_pnl` |
| HistoricalVar.Var1dDependsOnlyOnScenarios | solutions.py:229-239 | two instances whose combined scenarios are the same multiset have the same VaR, so reordering the combined scenarios does not change it |
| HistoricalVar.Var1dSymmetric | solutions.py:229-239 | swapping the two currencies, series and position together, leaves the VaR unchanged |
| HistoricalVar.TestValidation | solutions.py:145-206 | a non-array series or a non-numeric position makes the constructor raise for that attribute, and valid arguments construct |
| Values.ExpiryMessageNamesTradeDate | solutions.py:55-61 | as written, the `expiry_date` setter's messages name `trade_date`, so they read exactly like the trade-date setter's |
| Values.MessageAttributeIdentifiesField | solutions.py:37-206 | corrected, every setter's error names its own attribute, so two errors name the same attribute only if they come from the same setter |

## Left out

- `import_data` reads a spreadsheet, so it is I/O. The `__main__` block, `__str__` and printing are left out.
- Floating point is not modelled: arithmetic is on exact reals, with no rounding, overflow, `inf` or `nan`. Where numpy would produce `inf` or `nan` from a zero divisor in d1, the model returns `None` for d1 and everything computed from it.
- `np.exp`, `np.log`, `np.sqrt` and `norm.cdf` are uninterpreted functions. Their laws appear only as hypotheses of the lemmas that need them:
  - exp(x) exp(-x) = 1;
  - N(x) + N(-x) = 1;
  - exp(log x) = x for x > 0.
- The numeric price checks of the option tests, which compare to three decimals, are left out, because they need the actual values of `exp` and `norm.cdf`.
- BlackScholes.Call: this is `None` wherever d1 is, but numpy often still returns a finite call price there. When `sigma * sqrt(T)` is zero, for example because the two dates coincide, numpy's d1 and d2 are plus or minus infinity, and `norm.cdf` maps them to 1 or 0. With S = 19, K = 17, r = 0.005, sigma = 0.3 and equal dates, numpy gives C = 2. A zero numerator (0/0) makes d1 `nan`, and so does a `nan` numerator, that is, the log of a negative F / K as with a negative S or K. `norm.cdf(nan)` is `nan`, so C is `nan` then. The model represents neither infinities, `nan` nor signed zeros, so it promises nothing about C on these inputs.
- BlackScholes.Put: P is built from C by parity, so it is `None` on the same inputs where numpy often returns a finite put price. In the equal-dates example above numpy gives P = 2 - 19 + 17 = 0. Where C is `nan`, P is `nan` too. The model promises nothing about P on these inputs.
- BlackScholes.D1: `log` of a negative ratio, or `sqrt` of a negative T, is `nan` in numpy, and `log(0)` is `-inf`. With S = 0, K = 17 and T > 0, for example, numpy's d1 and d2 are `-inf` and the prices are finite: C = 0 and P = K exp(-rT). Here `log` and `sqrt` return whatever the uninterpreted functions return. Only the zero divisors are singled out.
- Python's `bool` is a subclass of `int`, so `True` passes the numeric setters. `Value` has no boolean case, and a bool is read as `Int(1)` or `Int(0)`.
- Values.ValueError records which setter raised and why, not the message text. The typo in the S2 message is not modelled. The wrong attribute name in the expiry messages is modelled under Findings.
- DateParse.ParseYear: `%Y` is `\d\d\d\d` in Python's `_strptime`, and `\d` matches any Unicode decimal digit, which `int()` reads. A year written in, for example, Arabic-Indic digits is accepted by Python and rejected by the model. Only ASCII digits are modelled.
- DateParse.ParseDay: the `[12]\d` alternative of `%d` likewise accepts a non-ASCII second digit, which the model rejects.
- HistoricalVar.PnlVector requires every rate it divides by to be nonzero. numpy would produce `inf`/`nan` there, and those values are not modelled.
- HistoricalVar.TotalPnl requires equally long series. numpy also accepts two unequal cases. When one series has exactly two rates, its one-entry PnL vector is broadcast against the other. When the lengths are 0 and 1, both PnL vectors are empty, and `var_1d` then raises `IndexError` at index 1. Neither case is modelled.
- HistoricalVar.SetRates: the setters store the caller's numpy array by reference, and `pnl_vector`, `total_pnl` and `var_1d` read it again on every call. Writing into that array after construction therefore changes the VaR without any setter running. `VarModel` holds the rates as an immutable sequence, so this aliasing is not modelled.
- The elements of a numpy array are modelled as reals. Arrays of other element types are not modelled.

## Findings

| source | as written | input that shows it | evidently intended | confidence | as-written member | corrected member |
|---|---|---|---|---|---|---|
| solutions.py:55-61 | both `ValueError` messages of the `expiry_date` setter say `trade_date` | `BlackScholes('2022-11-23', 20230510, 19, 17, 0.005, 0.3)` raises "trade_date should be a string" although the trade date is valid | each message names the attribute whose setter raised, here `expiry_date` | high (not executed) | Values.MessageAttributeAsWritten, Values.ExpiryMessageNamesTradeDate, BlackScholes.ExpiryErrorMessage | Values.MessageAttribute, Values.MessageAttributeIdentifiesField |
