# Usage rating and usage collection, modelled in Dafny

This project models two pieces of the Abacus metering pipeline and proves
properties about them.

**The usage rating service** (`lib/aggregation/rate/src/index.js`) receives
aggregated-usage documents. For each one it:

- attaches a cost to every metric entry, computed with the metric's configured
  rate function and price;
- folds the documents of one organization and UTC day into a per-day
  rated-usage state;
- keeps that state in a revisioned database, mirrored in a cache;
- logs every rated document under its own log id.

Concurrent calls are batched and grouped by state id. Each group's state is
updated under a per-key lock.

**The usage collector** (`lib/metering/collector/src/lib/collector.js`)
validates a submitted usage document and enqueues it. It then answers 202 with
the document's location, or with the status and body of the step that failed.

Files:

- `wrappers.dfy`: `Option` and `Result`.
- `values.dfy`: the JSON values of documents.
  - `undefined` is a missing key.
  - JavaScript truthiness is `Truthy`.
- `lists.dfy`: the list operations the source relies on.
  - from underscore: `filter(...)[0]`, `map` with a callback that throws,
    and `groupBy` with a call's position in its group
  - the fold a `map` performs when its callback updates a captured variable (`Scan`)
  - `Join`: the joining of ids by `Array.prototype.join` and `util.format`
  - `Split`: not an operation of the source; it is the inverse of `Join` that
    states which ids a location can be read back into
- `pricing.dfy`: `day`, `pricingCountry`, `price`, `ratefn`.
- `rating.dfy`:
  - the usage tree
  - `rate`, level by level
  - what a rated tree is (`Ratable`, `ResourcesRated`, `SpaceRated`, ...)
  - the fold of a group of documents
- `stores.dfy`: the rated-usage database with revision tokens, the cache, the
  rated-usage log, and the per-key lock, as classes.
- `rated_docs.dfy`: the ids, documents and revisions the service reads and
  writes, and the coherence of database and cache.
- `rate_service.dfy`: the service as a class.
  - `ratedUsage`, `storeRatedUsage`, `updateRatedUsage`
  - the batch coalescer
  - `rateUsage`, `logRatedUsage`
  - the retrieval route
- `collector.dfy`: `getLocation`, the status mapping, `Collector` and the
  monitored wrapper.

Collaborators whose code is not part of this model are parameters:

- the account service, called over the network, as `account`
- `dbclient.kturi`, as `kturi`
- `seqid()`, as one sequence token per call
- the configuration modules, as a `Catalog`
- the usage validator, as `validator`
- `pad16`, the local zero-padding of the end time in a location

Where the code and its documentation differ, the model follows the code:

- **A group that fails does not fail its callers.** The batch callback gives
  every call of a failed group the object `{error}` as its result. `rateUsage`
  then logs `{error, id, aggregated_usage_id}` under the call's log id and
  returns that id. The model does the same: `ResultDoc`, `LogDoc`,
  `RateUsage`.
- **A missing country price does not give cost 0.** It makes the price 0, and
  the cost is `ratefn(0, quantity)`, whatever the rate function makes of it.
- **Some missing configuration throws instead of defaulting to 0.** A missing
  resource configuration, a metric with no rate function, or a priced plan that
  lists no entry for the metric all throw. The model gives an error for each,
  and the error reaches the group.

## Model

| member | source | states |
|---|---|---|
| Lists.FilterHead | lib/aggregation/rate/src/index.js:85-92 | `filter(s, p)` is non-empty exactly when some element matches, and its head is the first match |
| Lists.MapResult | lib/aggregation/rate/src/index.js:114-128 | `map` with a callback that throws succeeds exactly when the callback succeeds on every element; its values are then the callback's, element by element; otherwise it throws the error of the first failing element |
| Lists.Keys | lib/aggregation/rate/src/index.js:240 | the groups of `groupBy`: every call's state id has a group |
| Lists.KeysDistinct | lib/aggregation/rate/src/index.js:240 | no two groups share a key |
| Lists.KeysFrom | lib/aggregation/rate/src/index.js:240 | every group key is the state id of some call |
| Lists.Members | lib/aggregation/rate/src/index.js:240 | a group lists exactly the positions of the calls with its key, in call order |
| Lists.Rank | lib/aggregation/rate/src/index.js:240-256 | every call has a position in the group of its key, and the group lists the call there |
| Lists.Scan | lib/aggregation/rate/src/index.js:208-211 | a successful fold yields one state per document |
| Lists.ScanAppend | lib/aggregation/rate/src/index.js:208-211 | folding `a + b` is folding `a`, then folding `b` from the state `a` ended in; the first error wins |
| Lists.ScanSnoc | lib/aggregation/rate/src/index.js:208-211 | folding one more document extends a successful fold by the step from its last state, and keeps an error |
| Lists.ScanFailed | lib/aggregation/rate/src/index.js:208-211 | once the fold has failed, later documents do not change its outcome |
| Lists.ScanIndependent | lib/aggregation/rate/src/index.js:208-211 | when a step keeps a view of its state and depends on the state only through it, the fold succeeds exactly when each step from the initial state does, and state `i` is that step |
| Lists.SplitJoin | lib/metering/collector/src/lib/collector.js:15-23 | ids joined with `/` split back into the same ids when none holds a `/` |
| Lists.SplitConcat | lib/metering/collector/src/lib/collector.js:24 | splitting `x + sep + y` splits each half |
| Pricing.Day | lib/aggregation/rate/src/index.js:62-65 | `day(t)` is a whole number of days, at most `t` and less than one day before it |
| Pricing.DayUnique | lib/aggregation/rate/src/index.js:62-65 | UTC midnight is the only such time |
| Pricing.DayIdempotent | lib/aggregation/rate/src/index.js:62-65 | the day of a day is itself |
| Pricing.DayValue | lib/aggregation/rate/src/index.js:62-65 | the day of a JSON `end` is a number exactly when `end` is a number, `null` or a boolean whose time lies within the range of a Date, and is then the start of the UTC day of that time (truncated toward zero); otherwise it is NaN |
| Pricing.NullOrBoolEndIsEpochDay | lib/aggregation/rate/src/index.js:62-65 | an `end` of `null`, `false` or `true` falls on the day of the epoch, 0 |
| Pricing.PricingCountry | lib/aggregation/rate/src/index.js:68-76 | an unreachable account service is an error; otherwise the country is truthy: the account's `pricing_country` when that is truthy, else `'USA'` |
| Pricing.PriceLookup | lib/aggregation/rate/src/index.js:80-96 | price is 0 for an unknown resource or plan; it is an error when the first plan of that id has no entry for the metric; otherwise it is the price of the first entry for the country, or 0 when there is none |
| Pricing.NoCountryPriceIsZero | lib/aggregation/rate/src/index.js:90-92 | with no price configured for the country, the price is 0 |
| Pricing.RateFn | lib/aggregation/rate/src/index.js:99-101 | `ratefn` fails exactly when no configured metric has the name, else gives the first such metric's rate function |
| Rating.RateMetricMeaning | lib/aggregation/rate/src/index.js:116-126 | a metric entry is rated exactly when it has a rate function and a price, and then gets `cost = rfn(price, quantity)` with every other field kept |
| Rating.RatePlanMeaning | lib/aggregation/rate/src/index.js:114-128 | a plan is rated exactly when all its entries are, entry for entry and in order |
| Rating.RateResourceMeaning | lib/aggregation/rate/src/index.js:106-130 | a resource is rated exactly when its configuration exists and all its plans are rated |
| Rating.RateResourcesMeaning | lib/aggregation/rate/src/index.js:134 | a resource list is rated exactly when every resource is, in order |
| Rating.RateSpaceMeaning | lib/aggregation/rate/src/index.js:135-144 | a space is rated exactly when its resources and every consumer's resources are, with its other fields kept |
| Rating.CarryRevisions | lib/aggregation/rate/src/index.js:147-150 | the new state gets the previous `_rev`, and its `dbrev` when that is truthy; every other field is untouched |
| Rating.CarryOwnRevisions | lib/aggregation/rate/src/index.js:133-150 | putting back a clone's own revisions changes nothing |
| Rating.RateMeaning | lib/aggregation/rate/src/index.js:104-153 | `rate` succeeds exactly when every metric entry of the document is ratable; the new state keeps every field of the previous one and holds the rated copies of the document's resources and spaces |
| Rating.FoldMeaning | lib/aggregation/rate/src/index.js:199-211 | folding a group succeeds exactly when each document is ratable; each state keeps the initial state's fields and is the rating of its own document, so the last document decides the stored state |
| Stores.Committed | lib/aggregation/rate/src/index.js:180-181 | a committed document carries the new revision and is otherwise the document written |
| Stores.Read | lib/aggregation/rate/src/index.js:158 | a read fails exactly when the store is down, and otherwise gives the stored document exactly when there is one |
| Stores.RevisionedStore.Get | lib/aggregation/rate/src/index.js:158 | a database read is the store read of its current documents |
| Stores.RevisionedStore.Put | lib/aggregation/rate/src/index.js:180-181 | a write succeeds exactly when the store is up and the document's `_rev` is the stored revision; it then stores the document under a strictly newer revision and returns it; otherwise nothing changes |
| Stores.Cache.Put | lib/aggregation/rate/src/index.js:182 | a cache write replaces the entry |
| Stores.LogStore.Put | lib/aggregation/rate/src/index.js:169 | a log write succeeds exactly when the log is up and the id is new, and adds only that entry |
| Stores.KeyLock.Acquire | lib/aggregation/rate/src/index.js:191 | acquiring a free key holds it |
| Stores.KeyLock.Release | lib/aggregation/rate/src/index.js:219-221 | releasing frees the key and counts one release |
| RatedDocs.SameDaySameState | lib/aggregation/rate/src/index.js:265 | documents of one organization ending on the same UTC day share a state id |
| RatedDocs.SeedState | lib/aggregation/rate/src/index.js:199-202 | a new state holds only the first document's `organization_id`, `start` and `end`, and no usage |
| RatedDocs.GroupOutcomeMeaning | lib/aggregation/rate/src/index.js:194-211 | a load error or an unreachable account service is the group's error; a successful group has one state per document, each the rating of its document onto the initial state |
| RatedDocs.StoredDoc | lib/aggregation/rate/src/index.js:178-179 | the stored state is the final state without `dbrev`, with `id`, `last_rated_usage_id` and `aggregated_usage_id` |
| RatedDocs.DbDoc | lib/aggregation/rate/src/index.js:180-181 | the database copy adds `_id`; its `_rev` is the state's `dbrev` when it has one, else the state's `_rev` |
| RatedDocs.CacheDoc | lib/aggregation/rate/src/index.js:182 | the cache copy adds `_id` and `dbrev`, the revision the database returned |
| RatedDocs.InitialStateRevision | lib/aggregation/rate/src/index.js:156-182 | under coherence the state a group starts from names the database's current revision, whether it was read from the cache or from the database |
| RatedDocs.GroupWriteRevision | lib/aggregation/rate/src/index.js:199-215 | under coherence the final state of a successful group carries the database's current revision, so its write does not conflict |
| RatedDocs.DbDocRevision | lib/aggregation/rate/src/index.js:178-181 | the database copy's `_rev` is the state's write revision |
| RatedDocs.StoreKeepsCoherent | lib/aggregation/rate/src/index.js:180-182 | one database write and the matching cache write keep database and cache coherent |
| RatedDocs.LogDoc | lib/aggregation/rate/src/index.js:273-274 | the log document is the call's result, or `{error}`, with `id` and `aggregated_usage_id` |
| RatedDocs.Retrieved | lib/aggregation/rate/src/index.js:315-316 | a retrieved entry has no `_id`, `_rev` or `last_rated_usage_id`, and keeps every other field; nothing found gives `{}` |
| RateService.GroupCalls | lib/aggregation/rate/src/index.js:240-245 | a group holds the documents of the calls with its state id, in call order |
| RateService.RateGroup | lib/aggregation/rate/src/index.js:208-211 | the loop applying the step to each document and the previous state computes the fold of the group's documents (with `RateStep` as the step, the group's rating), with one state per document; the first failing step ends it |
| RateService.Scatter | lib/aggregation/rate/src/index.js:247-256 | each member of a group gets its own element of the group's outcome at its call's position; other positions are untouched |
| RateService.AllAnswered | lib/aggregation/rate/src/index.js:240-256 | once every group key has an outcome, every call's state id has one, so every call is answered from its group |
| RateService.StoredStep | lib/aggregation/rate/src/index.js:243-249 | running one more group, whose write touches only its own key, keeps every successful group's last state stored and every other key as the batch found it |
| RateService.SucceededStep | lib/aggregation/rate/src/index.js:243-249 | a group adds its key to the successful ones exactly when it succeeds, so the count of writes grows by one or by none |
| RateService.PendingStep | lib/aggregation/rate/src/index.js:240-243 | since the group keys are distinct, running one group leaves the later groups without an outcome |
| RateService.LogIdStep | lib/aggregation/rate/src/index.js:272-277 | logging a call is written exactly when it is the first use of a log id the log did not hold, and adds that id to the log |
| RateService.ScatterAnswers | lib/aggregation/rate/src/index.js:247-256 | spreading one group's outcome keeps every call answered from its own group's outcome at its rank |
| RateService.SameDaySameGroup | lib/aggregation/rate/src/index.js:263-268 | documents of one organization whose `end` falls on the same UTC day are batched into one group: each is a member of the other's group |
| RateService.RatingService.RatedUsage | lib/aggregation/rate/src/index.js:156-164 | the cached state, else the stored one; the store's failure only on a cache miss |
| RateService.RatingService.StoreRatedUsage | lib/aggregation/rate/src/index.js:176-186 | one database write, then one cache write carrying the returned revision; it fails, changing nothing, exactly when the database is down or the revision is stale; coherence is kept |
| RateService.RatingService.UpdateRatedUsage | lib/aggregation/rate/src/index.js:188-222 | the result is the group's outcome against the state loaded from the cache or the database, or the store's unavailability exactly when the outcome succeeds while the database is down; the lock is taken and released once on every path; a failure writes nothing; a success writes the last state once to each store |
| RateService.RatingService.BatchGroup | lib/aggregation/rate/src/index.js:243-249 | one group: its outcome is its own update of its key; on success the database holds the last state committed at a new revision and the cache holds it with that revision, one write each; on failure neither store changes; the outcome is spread to the group's calls |
| RateService.RatingService.BatchRateUsage | lib/aggregation/rate/src/index.js:226-259 | calls sharing a state id form one group with one update; each group's outcome is that update against the stores as the batch found them, so one group's failure does not reach another; each call gets, in call order, its own state from its group's outcome or its group's error; afterwards each successful group's key holds its last state in both stores, every other key holds what it held before, and each store took exactly one write per successful group; one lock cycle per group |
| RateService.RatingService.LogRatedUsage | lib/aggregation/rate/src/index.js:167-172 | the log document is written under its id with `_id`, unless the log is down or the id is taken |
| RateService.RatingService.LogResults | lib/aggregation/rate/src/index.js:272-277 | while the log is up, a call is logged exactly when it is the first to use a log id the log did not hold, and the log then holds exactly its former entries and the calls' log ids; a logged call names its log id, and the entry there holds its result; while the log is down nothing is written; the log only grows |
| RateService.RatingService.RateUsage | lib/aggregation/rate/src/index.js:263-278 | the batch answers each call from its group's update against the stores as they were, and the stores end holding each successful group's last state and nothing else new; each answer is logged under the call's log id whenever the log is up and that id is new, the log then holding exactly its former entries and the calls' log ids; a log that is down is left unchanged |
| RateService.RatingService.GetRatedUsage | lib/aggregation/rate/src/index.js:307-321 | the entry under the id of the organization, day and sequence, without `_id`, `_rev` and `last_rated_usage_id`, or the log's unavailability |
| Collector.LocationIds | lib/metering/collector/src/lib/collector.js:14-25 | the location ends in the document's six ids, recoverable by splitting at `/` when no id holds a `/` |
| Collector.LocationDistinguishes | lib/metering/collector/src/lib/collector.js:14-25 | two documents with slash-free ids share a location only when they share their ids |
| Collector.StatusOf | lib/metering/collector/src/lib/collector.js:46-50 | 451 for an unsupported license, which wins over a bad request; 400 for a bad request; 500 otherwise |
| Collector.ValidationFailure | lib/metering/collector/src/lib/collector.js:46-55 | the body is the error with `name` set to `Validation error: status code <status>`, the status being 400, 451 or 500 |
| Collector.EnqueueFailure | lib/metering/collector/src/lib/collector.js:64-69 | status 500 with the error's fields and `name` set to `Enqueue error` |
| Collector.Unprocessed | lib/metering/collector/src/lib/collector.js:43 | the validator sees the document without `processed_id` and with every other field |
| Collector.Outcome | lib/metering/collector/src/lib/collector.js:73-84 | 202 exactly when validation and enqueue both succeed, with the location; a validation failure's returnable; otherwise the enqueue failure's returnable |
| Collector.Producer.Send | lib/metering/collector/src/lib/collector.js:62 | a send appends to the queue, or throws the queue's failure and appends nothing |
| Collector.Collector.Validate | lib/metering/collector/src/lib/collector.js:41-57 | nothing when the validator accepts the document without `processed_id`; otherwise the validation failure's returnable |
| Collector.Collector.Send | lib/metering/collector/src/lib/collector.js:59-71 | nothing when the document is enqueued, else the enqueue failure's returnable |
| Collector.Collector.Collect | lib/metering/collector/src/lib/collector.js:73-84 | the response is the outcome of validation then enqueue; the document is enqueued exactly when the response is 202, so an invalid document is never sent |
| Collector.MonitoredCollector.Collect | lib/metering/collector/src/lib/collector.js:87-105 | the wrapped collector's response, unchanged |

## Left out

- HTTP wiring is not modelled: routes, status responses, the `loc` URL builder, and webapp and cluster bootstrap. The POST route's 400 and 201 answers are framework plumbing.
- Retry, circuit breaker and batch windows of the database clients are not modelled. Retries that are exhausted and an open breaker are one state: the store is `up` or not.
- Lock waits, time-outs and the interleaving of concurrent groups are not modelled. Groups run one after another, and `KeyLock` records that each key is held and released once per group.
- The account service call is a parameter `account`. Its reply is unreachable, or a body that may lack `pricing_country`.
- `seqid()`, `dbclient.kturi`, `pad16` and the validator are parameters, since their code is not part of this model.
- Rate functions are opaque functions on reals. Their floating-point arithmetic is not modelled.
- Metrics, gauges, bulletins and debug logging are not modelled, in the rating service or in `monitoredCollector`.
- The empty `recover` stub is not modelled; it does nothing.
- lib/cf/services/src/test/service-event-mapper-test.js and lib/cf/dashboard/src/test/errormiddleware-test.js are not part of this model. They exercise code whose source is not part of this model.
- Rating.Rate: `rate(null, ...)` is not modelled. Under underscore it returns null, but the only caller always passes a state.
- Rating.Doc: an absent `resources`, `spaces`, `plans`, `consumers` or `aggregated_usage` list is modelled as an empty one. A list that is absent where the source would read through it is not modelled.
- Pricing.Day: the mapping of years 0 to 99 to 1900 to 1999 by `Date.UTC` is not modelled; such times lie before year 100.
- Pricing.DayValue: a string `end` is parsed as a date by the source. Date parsing is not modelled, and the model gives NaN for every string. Objects give NaN, as in the source.
- Collector.UsageDoc: the six ids are strings. `util.format('%s')` of another JSON value is not modelled.
- RateService.RatingService.BatchRateUsage: groups run in order of each key's first call. The source runs them in `groupBy` key order, which puts integer-like keys first; no group sees another's state, so only the order of writes differs.
- Stores.LogStore: the log is write-once and ignores the `_rev` a logged state carries. A second write to a taken id fails.
- RateService.RatingService.UpdateRatedUsage: a store that comes back up between the read and the write of one group is not modelled. The store is up or down for the whole call.
