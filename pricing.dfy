/**
 * The pricing lookups of the rating service: the UTC day of a time, the
 * pricing country of an account, the configured price of a metric, and the
 * configured rate function of a metric.
 */
module Pricing {
  import opened Wrappers
  import opened Values
  import opened Lists

  const MsPerDay: int := 86400000

  /** The largest absolute time value (ms) a JavaScript `Date` holds. */
  const MaxTime: int := 8640000000000000

  /** `day(t)`: the time of UTC midnight that starts the day of `t`. */
  function Day(t: int): (d: int)
    ensures d % MsPerDay == 0
    ensures d <= t < d + MsPerDay
  {
    t - t % MsPerDay
  }

  /** UTC midnight is the only whole-day time at most `t` and less than a day before it. */
  lemma DayUnique(t: int, d: int)
    requires d % MsPerDay == 0 && d <= t < d + MsPerDay
    ensures d == Day(t)
  {
    var e := Day(t);
    var a, b := d / MsPerDay, e / MsPerDay;
    assert d == a * MsPerDay;
    assert e == b * MsPerDay;
  }

  lemma DayIdempotent(t: int)
    ensures Day(Day(t)) == Day(t)
  {
    DayUnique(Day(t), Day(t));
  }

  /** The integer time `new Date(x)` keeps: truncated toward zero, and NaN
      outside the range of a Date. */
  function TimeOf(x: real): Option<int> {
    var t := if x >= 0.0 then x.Floor else -((-x).Floor);
    if -MaxTime <= t <= MaxTime then Some(t) else None
  }

  /** The number `new Date(v)` takes from a JSON value: the number itself,
      and `ToNumber` of `null` (0) and of a boolean (1 or 0). `None` stands
      for every value the model does not convert (see `DayValue`). */
  function DateNumber(v: Option<Value>): Option<real> {
    match v
    case Some(Num(n)) => Some(n)
    case Some(Null) => Some(0.0)
    case Some(Bool(b)) => Some(if b then 1.0 else 0.0)
    case _ => None
  }

  /** `day(v)` for the JSON value of a document's `end`: a number, `null` or a
      boolean gives the start of the UTC day of the time it converts to,
      anything else NaN. */
  function DayValue(v: Option<Value>): (r: Value)
    ensures r.Num? <==> DateNumber(v).Some? && TimeOf(DateNumber(v).value).Some?
    ensures r.Num? ==> r.n == Day(TimeOf(DateNumber(v).value).value) as real
    ensures !r.Num? ==> r == NaN
  {
    var x := DateNumber(v);
    if x.Some? && TimeOf(x.value).Some? then Num(Day(TimeOf(x.value).value) as real)
    else NaN
  }

  /** `new Date(null)`, `new Date(false)` and `new Date(true)` all fall on
      the day of the epoch. */
  lemma NullOrBoolEndIsEpochDay(v: Value)
    requires v.Null? || v.Bool?
    ensures DayValue(Some(v)) == Num(0.0)
  {
    var x := DateNumber(Some(v)).value;
    assert TimeOf(x) == Some(if x == 1.0 then 1 else 0);
  }

  /** The reply of the account service: unreachable, or the body (`None`
      when the reply carries none). */
  datatype AccountReply = Unreachable | Reply(body: Option<Props>)

  const DefaultCountry: Value := Str("USA")

  /** `pricingCountry`: the account's `pricing_country`, or `'USA'` when the
      body or the field is missing (or falsy). */
  function PricingCountry(reply: AccountReply): (r: Result<Value, Failure>)
    ensures reply.Unreachable? <==> r == Err(AccountUnavailable)
    ensures r.Ok? ==> Truthy(r.value)
    ensures r.Ok? && r.value != DefaultCountry ==>
      reply.body.Some? && Field(reply.body.value, "pricing_country") == Some(r.value)
    ensures (reply.Reply? && reply.body.Some? && "pricing_country" in reply.body.value
             && Truthy(reply.body.value["pricing_country"])) ==> r == Ok(reply.body.value["pricing_country"])
  {
    match reply
    case Unreachable => Err(AccountUnavailable)
    case Reply(body) =>
      if body.None? || "pricing_country" !in body.value || !Truthy(body.value["pricing_country"]) then
        Ok(DefaultCountry)
      else Ok(body.value["pricing_country"])
  }

  /** The price configuration of one resource, as `prices(rid)` returns it. */
  datatype CountryPrice = CountryPrice(country: Value, price: real)
  datatype MetricPrices = MetricPrices(name: string, prices: seq<CountryPrice>)
  datatype PlanPrices = PlanPrices(planId: string, metrics: seq<MetricPrices>)
  datatype ResourcePrices = ResourcePrices(plans: seq<PlanPrices>)

  /** `prices(rid)` over all resources; a missing key is `undefined`. */
  type PriceConfig = map<string, ResourcePrices>

  /** A rate function maps (unit price, quantity) to a cost. */
  type RateFunction = (real, real) -> real

  /** One configured metric of a resource, as in `config(rid).metrics`. */
  datatype MetricDef = MetricDef(name: string, ratefn: RateFunction)

  /** `config(rid).metrics` over all resources; a missing key is `undefined`. */
  type ResourceConfig = map<string, seq<MetricDef>>

  function PlanIs(pid: string): PlanPrices -> bool {
    (p: PlanPrices) => p.planId == pid
  }

  function MetricIs(metric: string): MetricPrices -> bool {
    (m: MetricPrices) => m.name == metric
  }

  function CountryIs(country: Value): CountryPrice -> bool {
    (p: CountryPrice) => p.country == country
  }

  function DefNamed(metric: string): MetricDef -> bool {
    (m: MetricDef) => m.name == metric
  }

  /** `price(rid, pid, metric, country)`: the price of the first entry for the
      country, under the first entry for the metric, under the first plan
      with that id; 0 when the resource, the plan or the country has no entry.
      A plan without an entry for the metric makes the source throw. */
  function Price(prices: PriceConfig, rid: string, pid: string, metric: string, country: Value): (r: Result<real, Failure>)
  {
    if rid in prices then
      var plan := Filter(prices[rid].plans, PlanIs(pid));
      if |plan| > 0 then
        var metrics := Filter(plan[0].metrics, MetricIs(metric));
        if |metrics| == 0 then Err(PriceMetricMissing(rid, pid, metric))
        else
          var ps := Filter(metrics[0].prices, CountryIs(country));
          Ok(if |ps| > 0 then ps[0].price else 0.0)
      else Ok(0.0)
    else Ok(0.0)
  }

  /** The price lookup, stated with "first entry that matches" at each level. */
  lemma PriceLookup(prices: PriceConfig, rid: string, pid: string, metric: string, country: Value)
    ensures rid !in prices ==> Price(prices, rid, pid, metric, country) == Ok(0.0)
    ensures rid in prices ==>
      var plans := prices[rid].plans;
      var i := FirstIndex(plans, PlanIs(pid));
      && (i == |plans| ==> Price(prices, rid, pid, metric, country) == Ok(0.0))
      && (i < |plans| ==>
            var ms := plans[i].metrics;
            var j := FirstIndex(ms, MetricIs(metric));
            && (j == |ms| ==> Price(prices, rid, pid, metric, country) == Err(PriceMetricMissing(rid, pid, metric)))
            && (j < |ms| ==>
                  var cs := ms[j].prices;
                  var k := FirstIndex(cs, CountryIs(country));
                  Price(prices, rid, pid, metric, country) == Ok(if k < |cs| then cs[k].price else 0.0)))
  {
    if rid in prices {
      var plans := prices[rid].plans;
      FilterHead(plans, PlanIs(pid));
      var i := FirstIndex(plans, PlanIs(pid));
      if i < |plans| {
        var ms := plans[i].metrics;
        FilterHead(ms, MetricIs(metric));
        var j := FirstIndex(ms, MetricIs(metric));
        if j < |ms| {
          FilterHead(ms[j].prices, CountryIs(country));
        }
      }
    }
  }

  /** Without a price for the country the price is 0, whatever the quantity
      it is later applied to. */
  lemma NoCountryPriceIsZero(prices: PriceConfig, rid: string, pid: string, metric: string, country: Value)
    requires rid in prices
    requires forall p :: p in prices[rid].plans && p.planId == pid ==>
               forall m :: m in p.metrics && m.name == metric ==>
                 forall c :: c in m.prices ==> c.country != country
    ensures Price(prices, rid, pid, metric, country).Ok? ==> Price(prices, rid, pid, metric, country) == Ok(0.0)
  {
    var plans := prices[rid].plans;
    PriceLookup(prices, rid, pid, metric, country);
    var i := FirstIndex(plans, PlanIs(pid));
    if i < |plans| {
      var ms := plans[i].metrics;
      var j := FirstIndex(ms, MetricIs(metric));
      if j < |ms| {
        var cs := ms[j].prices;
        var k := FirstIndex(cs, CountryIs(country));
        assert plans[i] in plans && ms[j] in ms;
        if k < |cs| {
          assert cs[k] in cs;
        }
      }
    }
  }

  /** `ratefn(metrics, metric)`: the rate function of the first configured
      metric of that name; the source throws when there is none. */
  function RateFn(metrics: seq<MetricDef>, metric: string): (r: Result<RateFunction, Failure>)
    ensures r.Err? <==> forall i :: 0 <= i < |metrics| ==> metrics[i].name != metric
    ensures r.Err? ==> r.error == RateFnMissing(metric)
    ensures r.Ok? ==> var i := FirstIndex(metrics, DefNamed(metric));
                      i < |metrics| && metrics[i].name == metric && r.value == metrics[i].ratefn
  {
    FilterHead(metrics, DefNamed(metric));
    var m := Filter(metrics, DefNamed(metric));
    if |m| > 0 then Ok(m[0].ratefn) else Err(RateFnMissing(metric))
  }
}
