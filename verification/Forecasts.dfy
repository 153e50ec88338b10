/** Growth forecasts and discounted cash flow (calculations/forecasts.py) over exact reals. Square roots and the root
    behind a compound rate are parameters that satisfy their defining equations. */
module Forecasts {
  import opened Common

  function Power(x: real, n: nat): real {
    if n == 0 then 1.0 else Power(x, n - 1) * x
  }

  lemma {:induction false} PowerPositive(x: real, n: nat)
    requires x > 0.0
    ensures Power(x, n) > 0.0
  {
    if n > 0 {
      PowerPositive(x, n - 1);
      Positive(Power(x, n - 1), x);
    }
  }

  lemma Positive(a: real, b: real)
    requires a > 0.0 && b > 0.0
    ensures a * b > 0.0
  {
  }

  // ---------- Discounting ----------

  /** When cash flows fall: at the ends of the periods, or in their middles, where `root` is the square root of the
      discount base. */
  datatype Timing = EndOfPeriod | MidYear(root: real)

  predicate ValidTiming(base: real, t: Timing) {
    t.MidYear? ==> t.root > 0.0 && t.root * t.root == base
  }

  /** `_discount_factor` */
  function DiscountFactor(base: real, period: nat, t: Timing): real
    requires base > 0.0 && ValidTiming(base, t)
  {
    PowerPositive(base, period);
    match t
    case EndOfPeriod => 1.0 / Power(base, period)
    case MidYear(root) =>
      Inverted(Power(base, period), root);
      1.0 / (Power(base, period) / root)
  }

  /** What the timing does to every discount factor. */
  function Shift(t: Timing): real {
    if t.MidYear? then t.root else 1.0
  }

  lemma FactorShifts(base: real, period: nat, t: Timing)
    requires base > 0.0 && ValidTiming(base, t)
    ensures DiscountFactor(base, period, t) == Shift(t) * DiscountFactor(base, period, EndOfPeriod)
    ensures DiscountFactor(base, period, EndOfPeriod) * Power(base, period) == 1.0
  {
    PowerPositive(base, period);
    if t.MidYear? { Inverted(Power(base, period), t.root); }
  }

  lemma Inverted(p: real, root: real)
    requires p > 0.0 && root > 0.0
    ensures p / root > 0.0 && 1.0 / (p / root) == root * (1.0 / p)
  {
    var q := p / root;
    assert q * root == p;
    if q <= 0.0 { NotPositive(q, root); }
    assert (1.0 / q) * q == 1.0;
    Cancel(1.0 / q, root * (1.0 / p), q);
  }

  lemma NotPositive(a: real, b: real)
    requires a <= 0.0 && b > 0.0
    ensures a * b <= 0.0
  {
  }

  lemma Cancel(a: real, b: real, c: real)
    requires c > 0.0 && a * c == b * c
    ensures a == b
  {
  }

  function Discounted(cash: real, factor: real): real {
    cash * factor
  }

  function PresentValues(cashFlows: seq<real>, base: real, t: Timing): real
    requires base > 0.0 && ValidTiming(base, t)
  {
    if cashFlows == [] then 0.0
    else
      var n := |cashFlows|;
      PresentValues(cashFlows[..n - 1], base, t) + Discounted(cashFlows[n - 1], DiscountFactor(base, n, t))
  }

  // ---------- Terminal value ----------

  datatype Terminal = PerpetuityGrowth(growth: real) | ExitMultiple(multiple: real, metric: Option<real>)

  datatype ForecastError =
    | NoCashFlows | BadDiscountRate | BadShares | BadGrowthRate | GrowthNotBelowDiscount | BadMultiple

  function TerminalError(terminal: Terminal, rate: real): Option<ForecastError> {
    match terminal
    case PerpetuityGrowth(growth) =>
      if growth <= -1.0 then Some(BadGrowthRate) else if growth >= rate then Some(GrowthNotBelowDiscount) else None
    case ExitMultiple(multiple, _) => if multiple <= 0.0 then Some(BadMultiple) else None
  }

  function Sold(metric: real, multiple: real): real {
    metric * multiple
  }

  /** `_terminal_value` */
  function TerminalValue(terminal: Terminal, last: real, rate: real): real
    requires TerminalError(terminal, rate).None?
  {
    match terminal
    case PerpetuityGrowth(growth) => last * (1.0 + growth) / (rate - growth)
    case ExitMultiple(multiple, metric) => Sold(if metric.Some? then metric.value else last, multiple)
  }

  function EnterpriseValue(cashFlows: seq<real>, rate: real, t: Timing, terminal: Terminal): real
    requires cashFlows != [] && rate > -1.0 && ValidTiming(1.0 + rate, t) && TerminalError(terminal, rate).None?
  {
    PresentValues(cashFlows, 1.0 + rate, t)
    + Discounted(TerminalValue(terminal, cashFlows[|cashFlows| - 1], rate), DiscountFactor(1.0 + rate, |cashFlows|, t))
  }

  datatype Valuation = Valuation(
    forecast: real, terminal: real, pvTerminal: real, enterprise: real, equity: real, perShare: Option<real>)

  /** `pv_forecast` */
  method ForecastValue(cashFlows: seq<real>, base: real, t: Timing) returns (pvForecast: real)
    requires base > 0.0 && ValidTiming(base, t)
    ensures pvForecast == PresentValues(cashFlows, base, t)
  {
    pvForecast := 0.0;
    for period := 1 to |cashFlows| + 1
      invariant pvForecast == PresentValues(cashFlows[..period - 1], base, t)
    {
      assert cashFlows[..period][..period - 1] == cashFlows[..period - 1];
      var factor := DiscountFactor(base, period, t);
      pvForecast := pvForecast + Discounted(cashFlows[period - 1], factor);
    }
    assert cashFlows[..|cashFlows|] == cashFlows;
  }

  function PerShare(equity: real, shares: Option<real>): (r: Option<real>)
    requires shares.Some? ==> shares.value > 0.0
    ensures r.Some? <==> shares.Some?
    ensures shares.Some? ==> r.value * shares.value == equity
  {
    if shares.None? then None else Some(equity / shares.value)
  }

  /** `discounted_cash_flow`, from the parsed arguments on. */
  method DiscountedCashFlow(
      cashFlows: seq<real>, rate: real, t: Timing, terminal: Terminal, netDebt: real, shares: Option<real>)
    returns (r: Result<Valuation, ForecastError>)
    requires rate > -1.0 ==> ValidTiming(1.0 + rate, t)
    ensures r.Ok? <==>
      && cashFlows != [] && rate > -1.0 && (shares.Some? ==> shares.value > 0.0)
      && (terminal.PerpetuityGrowth? ==> -1.0 < terminal.growth < rate)
      && (terminal.ExitMultiple? ==> terminal.multiple > 0.0)
    ensures r == Err(NoCashFlows) <==> cashFlows == []
    ensures r == Err(BadDiscountRate) <==> cashFlows != [] && rate <= -1.0
    ensures r == Err(BadShares) <==> cashFlows != [] && rate > -1.0 && shares.Some? && shares.value <= 0.0
    ensures r.Ok? ==>
      && r.value.enterprise == EnterpriseValue(cashFlows, rate, t, terminal)
      && r.value.enterprise == r.value.forecast + r.value.pvTerminal
      && r.value.equity + netDebt == r.value.enterprise
      && r.value.perShare == PerShare(r.value.equity, shares)
  {
    if cashFlows == [] { return Err(NoCashFlows); }
    if rate <= -1.0 { return Err(BadDiscountRate); }
    if shares.Some? && shares.value <= 0.0 { return Err(BadShares); }
    var pvForecast := ForecastValue(cashFlows, 1.0 + rate, t);
    var error := TerminalError(terminal, rate);
    if error.Some? { return Err(error.value); }
    var terminalValue := TerminalValue(terminal, cashFlows[|cashFlows| - 1], rate);
    var pvTerminal := Discounted(terminalValue, DiscountFactor(1.0 + rate, |cashFlows|, t));
    var enterprise := pvForecast + pvTerminal;
    var equity := enterprise - netDebt;
    return Ok(Valuation(pvForecast, terminalValue, pvTerminal, enterprise, equity, PerShare(equity, shares)));
  }

  // ---------- Laws of valuation ----------

  lemma MidYearFactor(base: real, period: nat, root: real, f: real, f': real)
    requires base > 0.0 && root > 0.0 && root * root == base
    requires f == DiscountFactor(base, period, EndOfPeriod) && f' == DiscountFactor(base, period, MidYear(root))
    ensures f' == root * f
  {
    FactorShifts(base, period, MidYear(root));
  }

  /** Mid-year timing multiplies a present value by the root: `v'` is the mid-year value of `v`. */
  predicate Rooted(root: real, v: real, v': real) {
    v' == root * v
  }

  lemma RootedSum(root: real, v: real, v': real, cash: real, f: real, f': real)
    requires Rooted(root, v, v') && Rooted(root, f, f')
    ensures Rooted(root, v + Discounted(cash, f), v' + Discounted(cash, f'))
  {
    assert cash * (root * f) == root * (cash * f);
  }

  lemma {:induction false} ValuesRooted(cashFlows: seq<real>, base: real, root: real)
    requires base > 0.0 && root > 0.0 && root * root == base
    ensures Rooted(root, PresentValues(cashFlows, base, EndOfPeriod), PresentValues(cashFlows, base, MidYear(root)))
  {
    if cashFlows != [] {
      var n, front, last := |cashFlows|, cashFlows[..|cashFlows| - 1], cashFlows[|cashFlows| - 1];
      ValuesRooted(front, base, root);
      var f, f' := DiscountFactor(base, n, EndOfPeriod), DiscountFactor(base, n, MidYear(root));
      MidYearFactor(base, n, root, f, f');
      RootedSum(root, PresentValues(front, base, EndOfPeriod), PresentValues(front, base, MidYear(root)), last, f, f');
    }
  }

  /** With mid-year timing the enterprise is worth the root of the discount base times as much, whichever way its
      terminal value is found. */
  lemma MidYearScalesValue(cashFlows: seq<real>, rate: real, root: real, terminal: Terminal)
    requires cashFlows != [] && rate > -1.0 && root > 0.0 && root * root == 1.0 + rate
    requires TerminalError(terminal, rate).None?
    ensures Rooted(root, EnterpriseValue(cashFlows, rate, EndOfPeriod, terminal),
                   EnterpriseValue(cashFlows, rate, MidYear(root), terminal))
  {
    WorthRooted(cashFlows, 1.0 + rate, root, TerminalValue(terminal, cashFlows[|cashFlows| - 1], rate));
  }

  lemma WorthRooted(cashFlows: seq<real>, base: real, root: real, worth: real)
    requires base > 0.0 && root > 0.0 && root * root == base
    ensures Rooted(root,
      PresentValues(cashFlows, base, EndOfPeriod) + Discounted(worth, DiscountFactor(base, |cashFlows|, EndOfPeriod)),
      PresentValues(cashFlows, base, MidYear(root))
      + Discounted(worth, DiscountFactor(base, |cashFlows|, MidYear(root))))
  {
    ValuesRooted(cashFlows, base, root);
    var f, f' := DiscountFactor(base, |cashFlows|, EndOfPeriod), DiscountFactor(base, |cashFlows|, MidYear(root));
    MidYearFactor(base, |cashFlows|, root, f, f');
    RootedSum(root, PresentValues(cashFlows, base, EndOfPeriod), PresentValues(cashFlows, base, MidYear(root)), worth,
              f, f');
  }

  /** Selling at a multiple is worth a last cash flow larger by the proceeds: the multiple of the given metric, or of
      the last cash flow when none is given. */
  lemma ExitIsALargerLastFlow(cashFlows: seq<real>, rate: real, t: Timing, multiple: real, metric: Option<real>)
    requires cashFlows != [] && rate > -1.0 && ValidTiming(1.0 + rate, t) && multiple > 0.0
    ensures var last := cashFlows[|cashFlows| - 1];
      EnterpriseValue(cashFlows, rate, t, ExitMultiple(multiple, metric)) ==
        PresentValues(cashFlows[..|cashFlows| - 1]
                      + [last + Sold(if metric.None? then last else metric.value, multiple)], 1.0 + rate, t)
  {
    var front, last := cashFlows[..|cashFlows| - 1], cashFlows[|cashFlows| - 1];
    var proceeds := Sold(if metric.None? then last else metric.value, multiple);
    OneMoreFlow(front, last + proceeds, 1.0 + rate, t);
    Together(PresentValues(front, 1.0 + rate, t), last, proceeds, DiscountFactor(1.0 + rate, |cashFlows|, t));
  }

  lemma OneMoreFlow(front: seq<real>, last: real, base: real, t: Timing)
    requires base > 0.0 && ValidTiming(base, t)
    ensures PresentValues(front + [last], base, t) ==
      PresentValues(front, base, t) + Discounted(last, DiscountFactor(base, |front| + 1, t))
  {
    assert (front + [last])[..|front|] == front;
  }

  lemma Together(before: real, a: real, b: real, factor: real)
    ensures before + Discounted(a, factor) + Discounted(b, factor) == before + Discounted(a + b, factor)
  {
  }

  /** Valuing at a multiple of the last cash flow and in perpetuity agree exactly when the multiple is the growing
      perpetuity's own. */
  lemma MethodsAgreeIff(cashFlows: seq<real>, rate: real, t: Timing, multiple: real, growth: real)
    requires cashFlows != [] && ValidTiming(1.0 + rate, t) && multiple > 0.0 && -1.0 < growth < rate
    ensures
      (EnterpriseValue(cashFlows, rate, t, ExitMultiple(multiple, None)) ==
        EnterpriseValue(cashFlows, rate, t, PerpetuityGrowth(growth)))
      <==> (cashFlows[|cashFlows| - 1] == 0.0 || multiple * (rate - growth) == 1.0 + growth)
  {
    var last, factor := cashFlows[|cashFlows| - 1], DiscountFactor(1.0 + rate, |cashFlows|, t);
    FactorIsPositive(1.0 + rate, |cashFlows|, t);
    TerminalsAgreeIff(last, multiple, growth, rate);
    SameWorth(PresentValues(cashFlows, 1.0 + rate, t), TerminalValue(ExitMultiple(multiple, None), last, rate),
              TerminalValue(PerpetuityGrowth(growth), last, rate), factor);
  }

  lemma SameWorth(before: real, a: real, b: real, factor: real)
    requires factor > 0.0
    ensures before + Discounted(a, factor) == before + Discounted(b, factor) <==> a == b
  {
    SameProducts(a, b, factor);
  }

  lemma TerminalsAgreeIff(last: real, multiple: real, growth: real, rate: real)
    requires multiple > 0.0 && -1.0 < growth < rate
    ensures
      (TerminalValue(ExitMultiple(multiple, None), last, rate) == TerminalValue(PerpetuityGrowth(growth), last, rate))
      <==> (last == 0.0 || multiple * (rate - growth) == 1.0 + growth)
  {
    var spread := rate - growth;
    var worth := last * (1.0 + growth) / spread;
    assert worth * spread == last * (1.0 + growth);
    SameProducts(last * multiple, worth, spread);
    Regrouped(last, multiple, spread);
    SameFactors(last, multiple * spread, 1.0 + growth);
  }

  lemma FactorIsPositive(base: real, period: nat, t: Timing)
    requires base > 0.0 && ValidTiming(base, t)
    ensures DiscountFactor(base, period, t) > 0.0
  {
    FactorShifts(base, period, t);
    PowerPositive(base, period);
    var f := DiscountFactor(base, period, EndOfPeriod);
    if f <= 0.0 { NotPositive(f, Power(base, period)); }
    Positive(Shift(t), f);
  }

  lemma SameProducts(a: real, b: real, c: real)
    requires c > 0.0
    ensures a * c == b * c <==> a == b
  {
    if a * c == b * c { Cancel(a, b, c); }
  }

  lemma SameFactors(a: real, b: real, c: real)
    ensures a * b == a * c <==> a == 0.0 || b == c
  {
    if a > 0.0 && a * b == a * c { Cancel(b, c, a); }
    if a < 0.0 && a * b == a * c { Cancel(b, c, -a); }
  }

  /** A cash flow one year on. */
  function Grown(cash: real, growth: real): real {
    cash * (1.0 + growth)
  }

  /** One more explicit year of terminal growth: what it is worth is what the terminal value loses. */
  lemma OneMoreYear(last: real, rate: real, growth: real, factor: real, next: real)
    requires -1.0 < growth < rate && next * (1.0 + rate) == factor
    ensures var grown, terminal := Grown(last, growth), PerpetuityGrowth(growth);
      Discounted(grown, next) + Discounted(TerminalValue(terminal, grown, rate), next) ==
        Discounted(TerminalValue(terminal, last, rate), factor)
  {
    var spread, grown := rate - growth, Grown(last, growth);
    var worth := grown / spread;
    assert worth * spread == grown;
    assert grown * (1.0 + growth) / spread == worth * (1.0 + growth);
    assert grown + worth * (1.0 + growth) == worth * (1.0 + rate);
    Factored(grown, worth * (1.0 + growth), next);
    Associate(worth, 1.0 + rate, next);
  }

  lemma Factored(a: real, b: real, c: real)
    ensures a * c + b * c == (a + b) * c
  {
  }

  lemma Associate(a: real, b: real, c: real)
    ensures a * b * c == a * (c * b)
  {
  }

  lemma NextFactor(base: real, n: nat, t: Timing)
    requires base > 0.0 && ValidTiming(base, t)
    ensures DiscountFactor(base, n + 1, t) * base == DiscountFactor(base, n, t)
  {
    FactorShifts(base, n, t);
    FactorShifts(base, n + 1, t);
    PowerPositive(base, n);
    var f, f' := DiscountFactor(base, n, EndOfPeriod), DiscountFactor(base, n + 1, EndOfPeriod);
    Regrouped(f', Power(base, n), base);
    Cancel(f' * base, f, Power(base, n));
    Regrouped(Shift(t), f', base);
  }

  lemma Regrouped(a: real, b: real, c: real)
    ensures a * (b * c) == a * c * b == a * b * c
  {
  }

  /** The explicit horizon does not matter: appending the cash flow that terminal growth implies leaves the enterprise
      value unchanged. */
  lemma HorizonInvariance(cashFlows: seq<real>, rate: real, t: Timing, growth: real)
    requires cashFlows != [] && -1.0 < growth < rate && ValidTiming(1.0 + rate, t)
    ensures var longer := cashFlows + [Grown(cashFlows[|cashFlows| - 1], growth)];
      EnterpriseValue(longer, rate, t, PerpetuityGrowth(growth)) ==
        EnterpriseValue(cashFlows, rate, t, PerpetuityGrowth(growth))
  {
    var base, n, last := 1.0 + rate, |cashFlows|, cashFlows[|cashFlows| - 1];
    var longer := cashFlows + [Grown(last, growth)];
    assert longer[..n] == cashFlows;
    NextFactor(base, n, t);
    OneMoreYear(last, rate, growth, DiscountFactor(base, n, t), DiscountFactor(base, n + 1, t));
  }

  /** Cash flows that grow at one rate from the first. */
  function GrowingSeries(first: real, growth: real, n: nat): (s: seq<real>)
    requires n > 0
    ensures |s| == n
  {
    if n == 1 then [first]
    else
      var before := GrowingSeries(first, growth, n - 1);
      before + [Grown(before[n - 2], growth)]
  }

  /** The perpetuity value of a growing cash flow, as the timing shifts it. */
  function GrowingPerpetuity(first: real, rate: real, growth: real, shift: real): real
    requires growth < rate
  {
    shift * (first / (rate - growth))
  }

  lemma FirstFactor(base: real, t: Timing)
    requires base > 0.0 && ValidTiming(base, t)
    ensures DiscountFactor(base, 1, t) * base == Shift(t)
  {
    assert Power(base, 0) == 1.0;
    NextFactor(base, 0, t);
    FactorShifts(base, 0, t);
  }

  lemma FirstYear(first: real, rate: real, growth: real, shift: real, factor: real)
    requires -1.0 < growth < rate && factor * (1.0 + rate) == shift
    ensures Discounted(first, factor) + Discounted(TerminalValue(PerpetuityGrowth(growth), first, rate), factor) ==
      GrowingPerpetuity(first, rate, growth, shift)
  {
    var spread := rate - growth;
    var worth := first / spread;
    assert worth * spread == first;
    assert first * (1.0 + growth) / spread == worth * (1.0 + growth);
    assert first + worth * (1.0 + growth) == worth * (1.0 + rate);
    Factored(first, worth * (1.0 + growth), factor);
    Associate(worth, 1.0 + rate, factor);
  }

  lemma OnePeriodWorth(first: real, rate: real, t: Timing, growth: real)
    requires -1.0 < growth < rate && ValidTiming(1.0 + rate, t)
    ensures EnterpriseValue([first], rate, t, PerpetuityGrowth(growth)) ==
      GrowingPerpetuity(first, rate, growth, Shift(t))
  {
    assert [first][..0] == [];
    assert PresentValues([first], 1.0 + rate, t) == Discounted(first, DiscountFactor(1.0 + rate, 1, t));
    FirstFactor(1.0 + rate, t);
    FirstYear(first, rate, growth, Shift(t), DiscountFactor(1.0 + rate, 1, t));
  }

  /** A series growing at the terminal rate is worth its first cash flow over the spread, for every horizon. */
  lemma {:induction false} ConstantGrowthWorth(first: real, rate: real, t: Timing, growth: real, n: nat)
    requires n > 0 && -1.0 < growth < rate && ValidTiming(1.0 + rate, t)
    ensures EnterpriseValue(GrowingSeries(first, growth, n), rate, t, PerpetuityGrowth(growth)) ==
      GrowingPerpetuity(first, rate, growth, Shift(t))
  {
    if n == 1 {
      OnePeriodWorth(first, rate, t, growth);
    } else {
      ConstantGrowthWorth(first, rate, t, growth, n - 1);
      var before := GrowingSeries(first, growth, n - 1);
      assert GrowingSeries(first, growth, n) == before + [Grown(before[|before| - 1], growth)];
      HorizonInvariance(before, rate, t, growth);
    }
  }

  // ---------- Growth forecasts ----------

  function Compounded(base: real, rates: seq<real>): real {
    if rates == [] then base else Compounded(base, rates[..|rates| - 1]) * (1.0 + rates[|rates| - 1])
  }

  /** One scenario of `forecast_growth`: the value after each period. */
  method ForecastScenario(base: real, rates: seq<real>) returns (values: seq<real>)
    ensures |values| == |rates|
    ensures forall k :: 0 <= k < |rates| ==> values[k] == Compounded(base, rates[..k + 1])
  {
    values := [];
    var value := base;
    for i := 0 to |rates|
      invariant value == Compounded(base, rates[..i]) && |values| == i
      invariant forall k :: 0 <= k < i ==> values[k] == Compounded(base, rates[..k + 1])
    {
      assert rates[..i + 1][..i] == rates[..i];
      value := value * (1.0 + rates[i]);
      values := values + [value];
    }
  }

  lemma {:induction false} ConstantCompounding(base: real, rates: seq<real>, rate: real)
    requires forall k :: 0 <= k < |rates| ==> rates[k] == rate
    ensures Compounded(base, rates) == base * Power(1.0 + rate, |rates|)
  {
    if rates != [] {
      ConstantCompounding(base, rates[..|rates| - 1], rate);
      Regrouped(base, Power(1.0 + rate, |rates| - 1), 1.0 + rate);
    }
  }

  lemma {:induction false} PowersSeparate(x: real, y: real, n: nat)
    requires 0.0 < x < y && n > 0
    ensures Power(x, n) < Power(y, n)
  {
    if n == 1 {
      assert Power(x, 0) == 1.0 == Power(y, 0);
    } else {
      PowersSeparate(x, y, n - 1);
      PowerPositive(x, n - 1);
      Products(Power(x, n - 1), Power(y, n - 1), x, y);
    }
  }

  lemma Products(a: real, b: real, x: real, y: real)
    requires 0.0 < a < b && 0.0 < x < y
    ensures a * x < b * y
  {
    assert a * x < a * y by { Positive(a, y - x); }
    assert a * y < b * y by { Positive(b - a, y); }
  }

  /** The compound rate recovers a constant growth rate: any positive root of the total growth is one plus that rate. */
  lemma CompoundRateIsConstantRate(base: real, rates: seq<real>, rate: real, root: real)
    requires base > 0.0 && rate > -1.0 && rates != [] && forall k :: 0 <= k < |rates| ==> rates[k] == rate
    requires root > 0.0 && Power(root, |rates|) * base == Compounded(base, rates)
    ensures root - 1.0 == rate
  {
    ConstantCompounding(base, rates, rate);
    Cancel(Power(root, |rates|), Power(1.0 + rate, |rates|), base);
    if root < 1.0 + rate {
      PowersSeparate(root, 1.0 + rate, |rates|);
    } else if root > 1.0 + rate {
      PowersSeparate(1.0 + rate, root, |rates|);
    }
  }
}
