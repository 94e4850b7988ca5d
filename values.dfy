/**
 * The JSON values that the usage documents carry, the failures the rating
 * service can raise, and the few object operations (`extend`, `omit`) the
 * services apply to documents.
 */
module Values {
  import opened Wrappers

  /** Why a rating step, or one of its collaborators, failed. */
  datatype Failure =
    // `config(rid)` is undefined, so reading its `.metrics` throws
    | ResourceConfigMissing(resourceId: string)
    // no configured metric has that name, so reading `[0].ratefn` throws
    | RateFnMissing(metric: string)
    // the plan's price entry has no metric of that name: `metrics[0].prices` throws
    | PriceMetricMissing(resourceId: string, planId: string, metric: string)
    // a store or the account service exhausted its retries, or its breaker is open
    | StoreUnavailable
    | AccountUnavailable
    // a durable write carried a revision that is not the stored one
    | RevisionConflict(id: string)
    // a log entry with that id already exists
    | LogIdTaken(id: string)

  /** A JSON value. `NaN` is the number JavaScript yields for an invalid date;
      `Rev` is an opaque revision token handed out by a document store;
      `Error` is an error object stored inside a document. */
  datatype Value =
    | Null
    | Bool(b: bool)
    | Num(n: real)
    | NaN
    | Str(s: string)
    | Rev(token: nat)
    | Error(failure: Failure)

  /** The fields of a JSON object other than those a datatype names. */
  type Props = map<string, Value>

  /** JavaScript truthiness. */
  predicate Truthy(v: Value) {
    match v
    case Null => false
    case Bool(b) => b
    case Num(n) => n != 0.0
    case NaN => false
    case Str(s) => s != ""
    case _ => true
  }

  /** Reading a field: `None` stands for `undefined`. */
  function Field(p: Props, k: string): Option<Value> {
    if k in p then Some(p[k]) else None
  }

  /** `extend(p, {k: v})`. A field set to `undefined` is dropped when the
      document is stored as JSON, so `None` removes the key. */
  function Put(p: Props, k: string, v: Option<Value>): Props {
    if v.Some? then p[k := v.value] else p - {k}
  }

  /** `omit(p, keys)`. */
  function Omit(p: Props, keys: set<string>): Props {
    p - keys
  }

  /** The decimal digits of a natural number, as `String(n)` writes them. */
  function Decimal(n: nat): string
    decreases n
  {
    var digit := ['0', '1', '2', '3', '4', '5', '6', '7', '8', '9'][n % 10];
    if n < 10 then [digit] else Decimal(n / 10) + [digit]
  }

  /** `String(i)` for an integer. */
  function IntText(i: int): string {
    if i < 0 then "-" + Decimal(-i) else Decimal(i)
  }
}
