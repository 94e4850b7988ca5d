/**
 * The rating function: a new rated-usage state built from the previous state
 * and one aggregated-usage document, with a cost on every metric entry, and
 * the fold of a group of documents through it.
 */
module Rating {
  import opened Wrappers
  import opened Values
  import opened Lists
  import opened Pricing

  /** One metric entry of `aggregated_usage`; `other` holds every other
      field, among them `cost` once rated. */
  datatype MetricUsage = MetricUsage(metric: string, quantity: real, other: Props)

  /** One plan of a resource (`plan_id`, `aggregated_usage`). */
  datatype Plan = Plan(planId: string, aggregatedUsage: seq<MetricUsage>, other: Props)

  /** One resource entry (`resource_id`, `plans`). */
  datatype Resource = Resource(resourceId: string, plans: seq<Plan>, other: Props)

  datatype Consumer = Consumer(resources: seq<Resource>, other: Props)

  datatype Space = Space(resources: seq<Resource>, consumers: seq<Consumer>, other: Props)

  /** An aggregated-usage document or a rated-usage state: the usage tree and
      every other top-level field (`organization_id`, `start`, `end`, `id`,
      `_id`, `_rev`, `dbrev`, ...). An absent list is an empty one. */
  datatype Doc = Doc(props: Props, resources: seq<Resource>, spaces: seq<Space>)

  /** The two configuration modules: resource metrics and prices. */
  datatype Catalog = Catalog(metrics: ResourceConfig, prices: PriceConfig)

  // ---------------------------------------------------------------------
  // The rating walk, level by level, as the source nests its `map` calls.

  function RateMetric(cat: Catalog, rid: string, pid: string, pc: Value, defs: seq<MetricDef>, m: MetricUsage)
    : Result<MetricUsage, Failure>
  {
    match RateFn(defs, m.metric)
    case Err(e) => Err(e)
    case Ok(rfn) =>
      match Price(cat.prices, rid, pid, m.metric, pc)
      case Err(e) => Err(e)
      case Ok(p) => Ok(m.(other := m.other["cost" := Num(rfn(p, m.quantity))]))
  }

  function RatePlan(cat: Catalog, rid: string, pc: Value, defs: seq<MetricDef>, p: Plan): Result<Plan, Failure> {
    match MapResult(p.aggregatedUsage, (m: MetricUsage) => RateMetric(cat, rid, p.planId, pc, defs, m))
    case Err(e) => Err(e)
    case Ok(ms) => Ok(p.(aggregatedUsage := ms))
  }

  /** `rateResource`: reading `config(rid).metrics` throws for an unknown
      resource even when it has no plans. */
  function RateResource(cat: Catalog, pc: Value, rs: Resource): Result<Resource, Failure> {
    if rs.resourceId !in cat.metrics then Err(ResourceConfigMissing(rs.resourceId))
    else
      var defs := cat.metrics[rs.resourceId];
      match MapResult(rs.plans, (p: Plan) => RatePlan(cat, rs.resourceId, pc, defs, p))
      case Err(e) => Err(e)
      case Ok(ps) => Ok(rs.(plans := ps))
  }

  function RateResources(cat: Catalog, pc: Value, rss: seq<Resource>): Result<seq<Resource>, Failure> {
    MapResult(rss, (rs: Resource) => RateResource(cat, pc, rs))
  }

  function RateConsumer(cat: Catalog, pc: Value, c: Consumer): Result<Consumer, Failure> {
    match RateResources(cat, pc, c.resources)
    case Err(e) => Err(e)
    case Ok(rs) => Ok(c.(resources := rs))
  }

  function RateSpace(cat: Catalog, pc: Value, s: Space): Result<Space, Failure> {
    match RateResources(cat, pc, s.resources)
    case Err(e) => Err(e)
    case Ok(rs) =>
      match MapResult(s.consumers, (c: Consumer) => RateConsumer(cat, pc, c))
      case Err(e) => Err(e)
      case Ok(cs) => Ok(s.(resources := rs, consumers := cs))
  }

  /** `extend(newr, r.dbrev ? {dbrev, _rev} : {_rev})`: the revision tokens
      of the previous state, put back on the new one. */
  function CarryRevisions(props: Props, r: Props): (out: Props)
    ensures Field(out, "_rev") == Field(r, "_rev")
    ensures Field(r, "dbrev").Some? && Truthy(Field(r, "dbrev").value) ==> Field(out, "dbrev") == Field(r, "dbrev")
    ensures !(Field(r, "dbrev").Some? && Truthy(Field(r, "dbrev").value)) ==> Field(out, "dbrev") == Field(props, "dbrev")
    ensures forall k :: k != "_rev" && k != "dbrev" ==> Field(out, k) == Field(props, k)
  {
    if Field(r, "dbrev").Some? && Truthy(Field(r, "dbrev").value) then
      Put(Put(props, "dbrev", Field(r, "dbrev")), "_rev", Field(r, "_rev"))
    else Put(props, "_rev", Field(r, "_rev"))
  }

  /** `rate(r, u, pc)`: a clone of `r` whose `resources` and `spaces` are the
      rated copies of `u`'s; nothing else is taken from `u`. */
  function Rate(cat: Catalog, r: Doc, u: Doc, pc: Value): Result<Doc, Failure> {
    match RateResources(cat, pc, u.resources)
    case Err(e) => Err(e)
    case Ok(rs) =>
      match MapResult(u.spaces, (s: Space) => RateSpace(cat, pc, s))
      case Err(e) => Err(e)
      case Ok(ss) => Ok(Doc(CarryRevisions(r.props, r.props), rs, ss))
  }

  // ---------------------------------------------------------------------
  // What a rated tree is, entry by entry.

  /** The cost the source attaches to metric `m` of plan `pid` of resource `rid`:
      `rfn(price(rid, pid, metric, pc), quantity)`. */
  ghost predicate Priced(cat: Catalog, rid: string, pid: string, pc: Value, m: MetricUsage) {
    && rid in cat.metrics
    && RateFn(cat.metrics[rid], m.metric).Ok?
    && Price(cat.prices, rid, pid, m.metric, pc).Ok?
  }

  ghost function Cost(cat: Catalog, rid: string, pid: string, pc: Value, m: MetricUsage): real
    requires Priced(cat, rid, pid, pc, m)
  {
    RateFn(cat.metrics[rid], m.metric).value(Price(cat.prices, rid, pid, m.metric, pc).value, m.quantity)
  }

  /** `out` is `m` with every field kept and `cost` set. */
  ghost predicate MetricRated(cat: Catalog, rid: string, pid: string, pc: Value, m: MetricUsage, out: MetricUsage) {
    && Priced(cat, rid, pid, pc, m)
    && out.metric == m.metric && out.quantity == m.quantity
    && out.other.Keys == m.other.Keys + {"cost"}
    && out.other["cost"] == Num(Cost(cat, rid, pid, pc, m))
    && (forall k :: k in m.other && k != "cost" ==> out.other[k] == m.other[k])
  }

  ghost predicate PlanRatable(cat: Catalog, rid: string, pc: Value, p: Plan) {
    forall k :: 0 <= k < |p.aggregatedUsage| ==> Priced(cat, rid, p.planId, pc, p.aggregatedUsage[k])
  }

  /** `out` is `p` with every field kept and its metric entries rated, in order. */
  ghost predicate PlanRated(cat: Catalog, rid: string, pc: Value, p: Plan, out: Plan) {
    && out.planId == p.planId && out.other == p.other
    && |out.aggregatedUsage| == |p.aggregatedUsage|
    && forall k :: 0 <= k < |p.aggregatedUsage| ==>
         MetricRated(cat, rid, p.planId, pc, p.aggregatedUsage[k], out.aggregatedUsage[k])
  }

  ghost predicate ResourceRatable(cat: Catalog, pc: Value, rs: Resource) {
    && rs.resourceId in cat.metrics
    && forall j :: 0 <= j < |rs.plans| ==> PlanRatable(cat, rs.resourceId, pc, rs.plans[j])
  }

  /** `out` has the shape of `rs` (same fields, same plans in the same order),
      each plan rated. */
  ghost predicate ResourceRated(cat: Catalog, pc: Value, rs: Resource, out: Resource) {
    && out.resourceId == rs.resourceId && out.other == rs.other
    && |out.plans| == |rs.plans|
    && forall j :: 0 <= j < |rs.plans| ==> PlanRated(cat, rs.resourceId, pc, rs.plans[j], out.plans[j])
  }

  ghost predicate ResourcesRatable(cat: Catalog, pc: Value, rss: seq<Resource>) {
    forall i :: 0 <= i < |rss| ==> ResourceRatable(cat, pc, rss[i])
  }

  ghost predicate ResourcesRated(cat: Catalog, pc: Value, rss: seq<Resource>, out: seq<Resource>) {
    |out| == |rss| && forall i :: 0 <= i < |rss| ==> ResourceRated(cat, pc, rss[i], out[i])
  }

  ghost predicate SpaceRatable(cat: Catalog, pc: Value, s: Space) {
    && ResourcesRatable(cat, pc, s.resources)
    && forall c :: 0 <= c < |s.consumers| ==> ResourcesRatable(cat, pc, s.consumers[c].resources)
  }

  ghost predicate SpaceRated(cat: Catalog, pc: Value, s: Space, out: Space) {
    && out.other == s.other
    && ResourcesRated(cat, pc, s.resources, out.resources)
    && |out.consumers| == |s.consumers|
    && forall c :: 0 <= c < |s.consumers| ==>
         out.consumers[c].other == s.consumers[c].other
         && ResourcesRated(cat, pc, s.consumers[c].resources, out.consumers[c].resources)
  }

  /** Every metric entry of `u`, in all three scopes, can be rated. */
  ghost predicate Ratable(cat: Catalog, pc: Value, u: Doc) {
    && ResourcesRatable(cat, pc, u.resources)
    && forall s :: 0 <= s < |u.spaces| ==> SpaceRatable(cat, pc, u.spaces[s])
  }

  // ---------------------------------------------------------------------
  // The rating walk meets that description.

  lemma RateMetricMeaning(cat: Catalog, rid: string, pid: string, pc: Value, m: MetricUsage)
    requires rid in cat.metrics
    ensures RateMetric(cat, rid, pid, pc, cat.metrics[rid], m).Ok? <==> Priced(cat, rid, pid, pc, m)
    ensures RateMetric(cat, rid, pid, pc, cat.metrics[rid], m).Ok? ==>
              MetricRated(cat, rid, pid, pc, m, RateMetric(cat, rid, pid, pc, cat.metrics[rid], m).value)
  {
  }

  lemma RatePlanMeaning(cat: Catalog, rid: string, pc: Value, p: Plan)
    requires rid in cat.metrics
    ensures RatePlan(cat, rid, pc, cat.metrics[rid], p).Ok? <==> PlanRatable(cat, rid, pc, p)
    ensures RatePlan(cat, rid, pc, cat.metrics[rid], p).Ok? ==>
              PlanRated(cat, rid, pc, p, RatePlan(cat, rid, pc, cat.metrics[rid], p).value)
  {
    assert RatePlan(cat, rid, pc, cat.metrics[rid], p).Ok? <==> PlanRatable(cat, rid, pc, p) by {
      forall k | 0 <= k < |p.aggregatedUsage| {
        RateMetricMeaning(cat, rid, p.planId, pc, p.aggregatedUsage[k]);
      }
    }
    if RatePlan(cat, rid, pc, cat.metrics[rid], p).Ok? {
      forall k | 0 <= k < |p.aggregatedUsage| {
        RateMetricMeaning(cat, rid, p.planId, pc, p.aggregatedUsage[k]);
      }
    }
  }

  lemma RateResourceMeaning(cat: Catalog, pc: Value, rs: Resource)
    ensures RateResource(cat, pc, rs).Ok? <==> ResourceRatable(cat, pc, rs)
    ensures RateResource(cat, pc, rs).Ok? ==> ResourceRated(cat, pc, rs, RateResource(cat, pc, rs).value)
  {
    assert RateResource(cat, pc, rs).Ok? <==> ResourceRatable(cat, pc, rs) by {
      if rs.resourceId in cat.metrics {
        forall j | 0 <= j < |rs.plans| {
          RatePlanMeaning(cat, rs.resourceId, pc, rs.plans[j]);
        }
      }
    }
    if RateResource(cat, pc, rs).Ok? {
      forall j | 0 <= j < |rs.plans| {
        RatePlanMeaning(cat, rs.resourceId, pc, rs.plans[j]);
      }
    }
  }

  lemma RateResourcesMeaning(cat: Catalog, pc: Value, rss: seq<Resource>)
    ensures RateResources(cat, pc, rss).Ok? <==> ResourcesRatable(cat, pc, rss)
    ensures RateResources(cat, pc, rss).Ok? ==> ResourcesRated(cat, pc, rss, RateResources(cat, pc, rss).value)
  {
    forall i | 0 <= i < |rss| {
      RateResourceMeaning(cat, pc, rss[i]);
    }
  }

  lemma RateSpaceMeaning(cat: Catalog, pc: Value, s: Space)
    ensures RateSpace(cat, pc, s).Ok? <==> SpaceRatable(cat, pc, s)
    ensures RateSpace(cat, pc, s).Ok? ==> SpaceRated(cat, pc, s, RateSpace(cat, pc, s).value)
  {
    RateResourcesMeaning(cat, pc, s.resources);
    assert RateSpace(cat, pc, s).Ok? <==> SpaceRatable(cat, pc, s) by {
      forall c | 0 <= c < |s.consumers| {
        RateResourcesMeaning(cat, pc, s.consumers[c].resources);
      }
    }
    if RateSpace(cat, pc, s).Ok? {
      forall c | 0 <= c < |s.consumers| {
        RateResourcesMeaning(cat, pc, s.consumers[c].resources);
      }
    }
  }

  /** Clone-and-extend puts back exactly the fields the clone already had. */
  lemma CarryOwnRevisions(p: Props)
    ensures CarryRevisions(p, p) == p
  {
    var out := CarryRevisions(p, p);
    forall k ensures Field(out, k) == Field(p, k) { }
    assert forall k :: k in out <==> Field(out, k).Some?;
    assert out.Keys == p.Keys;
  }

  /** `rate` succeeds exactly when every metric entry in the three scopes of
      `u` has a rate function and a price; the new state then keeps every
      field of `r` (its `_rev` and `dbrev` among them) and holds the rated
      copies of `u`'s resources and spaces, entry for entry and in order. */
  lemma RateMeaning(cat: Catalog, r: Doc, u: Doc, pc: Value)
    ensures Rate(cat, r, u, pc).Ok? <==> Ratable(cat, pc, u)
    ensures Rate(cat, r, u, pc).Ok? ==>
      var n := Rate(cat, r, u, pc).value;
      && n.props == r.props
      && ResourcesRated(cat, pc, u.resources, n.resources)
      && |n.spaces| == |u.spaces|
      && forall s :: 0 <= s < |u.spaces| ==> SpaceRated(cat, pc, u.spaces[s], n.spaces[s])
  {
    RateResourcesMeaning(cat, pc, u.resources);
    assert Rate(cat, r, u, pc).Ok? <==> Ratable(cat, pc, u) by {
      forall s | 0 <= s < |u.spaces| {
        RateSpaceMeaning(cat, pc, u.spaces[s]);
      }
    }
    if Rate(cat, r, u, pc).Ok? {
      forall s | 0 <= s < |u.spaces| {
        RateSpaceMeaning(cat, pc, u.spaces[s]);
      }
      CarryOwnRevisions(r.props);
    }
  }

  // ---------------------------------------------------------------------
  // Folding a group of documents, each step rating onto the previous state.

  /** One step of the fold: `newr = rate(newr, u, pc)`. */
  function RateStep(cat: Catalog, pc: Value): (Doc, Doc) -> Result<Doc, Failure> {
    (r: Doc, u: Doc) => Rate(cat, r, u, pc)
  }

  /** The states `rate` produces as a group's documents are folded in order:
      state `i` is `rate(state i-1, us[i])`, state -1 being `init`. */
  function Fold(cat: Catalog, pc: Value, init: Doc, us: seq<Doc>): Result<seq<Doc>, Failure> {
    Scan(RateStep(cat, pc), init, us)
  }

  function PropsOf(d: Doc): Props {
    d.props
  }

  /** Each folded state is the rating of its own document onto the fields of
      the initial state: the fold succeeds exactly when every document is
      ratable, every state keeps the initial state's fields (its revision
      tokens among them), and the final state is decided by the last document. */
  lemma FoldMeaning(cat: Catalog, pc: Value, init: Doc, us: seq<Doc>)
    ensures Fold(cat, pc, init, us).Ok? <==> forall i :: 0 <= i < |us| ==> Ratable(cat, pc, us[i])
    ensures Fold(cat, pc, init, us).Ok? ==>
      && |Fold(cat, pc, init, us).value| == |us|
      && forall i :: 0 <= i < |us| ==>
           && Rate(cat, init, us[i], pc).Ok?
           && Fold(cat, pc, init, us).value[i] == Rate(cat, init, us[i], pc).value
           && Fold(cat, pc, init, us).value[i].props == init.props
  {
    var step := RateStep(cat, pc);
    forall s, u ensures step(s, u).Ok? ==> PropsOf(step(s, u).value) == PropsOf(s) {
      RateMeaning(cat, s, u, pc);
    }
    forall s1, s2, u | PropsOf(s1) == PropsOf(s2) ensures step(s1, u) == step(s2, u) {
    }
    ScanIndependent(step, PropsOf, init, us);
    forall i | 0 <= i < |us| {
      RateMeaning(cat, init, us[i], pc);
    }
  }
}
