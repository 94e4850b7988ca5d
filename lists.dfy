/**
 * The underscore.js list operations the services rely on (`filter`, `map`
 * with a throwing callback, `groupBy`) and the string join/split used to
 * build composite keys.
 */
module Lists {
  import opened Wrappers

  /** Index of the first element satisfying `p`, or `|s|` when none does. */
  function FirstIndex<T>(s: seq<T>, p: T -> bool): (i: nat)
    ensures i <= |s|
    ensures i < |s| ==> p(s[i])
    ensures forall j :: 0 <= j < i ==> !p(s[j])
  {
    if s == [] then 0
    else if p(s[0]) then 0
    else 1 + FirstIndex(s[1..], p)
  }

  /** `_.filter(s, p)`: the elements satisfying `p`, in order. */
  function Filter<T>(s: seq<T>, p: T -> bool): (r: seq<T>)
    ensures |r| <= |s|
    ensures forall x :: x in r ==> x in s && p(x)
    ensures forall i :: 0 <= i < |s| && p(s[i]) ==> s[i] in r
  {
    if s == [] then []
    else if p(s[0]) then [s[0]] + Filter(s[1..], p)
    else Filter(s[1..], p)
  }

  /** `filter(s, p)[0]` is the first element satisfying `p`, and it exists
      exactly when some element does. */
  lemma {:induction false} FilterHead<T>(s: seq<T>, p: T -> bool)
    ensures |Filter(s, p)| > 0 <==> FirstIndex(s, p) < |s|
    ensures |Filter(s, p)| > 0 ==> Filter(s, p)[0] == s[FirstIndex(s, p)]
  {
    if s != [] && !p(s[0]) {
      FilterHead(s[1..], p);
    }
  }

  /** The predicate "`f` throws on this element". */
  function Fails<A, B, E>(f: A -> Result<B, E>): A -> bool {
    (x: A) => f(x).Err?
  }

  /** `_.map(xs, f)` where `f` may throw: the mapped list, or the error of
      the first element on which `f` throws (later elements are not visited). */
  function MapResult<A, B, E>(xs: seq<A>, f: A -> Result<B, E>): (r: Result<seq<B>, E>)
    ensures r.Ok? <==> forall i :: 0 <= i < |xs| ==> f(xs[i]).Ok?
    ensures r.Ok? ==> |r.value| == |xs| && forall i :: 0 <= i < |xs| ==> r.value[i] == f(xs[i]).value
    ensures r.Err? ==> FirstIndex(xs, Fails(f)) < |xs| && r.error == f(xs[FirstIndex(xs, Fails(f))]).error
  {
    if xs == [] then Ok([])
    else
      match f(xs[0])
      case Err(e) => Err(e)
      case Ok(y) =>
        match MapResult(xs[1..], f)
        case Err(e) => Err(e)
        case Ok(ys) => Ok([y] + ys)
  }

  /** The distinct keys of `ks` in order of first occurrence: the groups of
      `_.values(_.groupBy(...))`. */
  function Keys<K(==)>(ks: seq<K>): (r: seq<K>)
    ensures forall i :: 0 <= i < |ks| ==> ks[i] in r
  {
    if ks == [] then []
    else
      var r := Keys(ks[..|ks| - 1]);
      if ks[|ks| - 1] in r then r else r + [ks[|ks| - 1]]
  }

  /** No key is listed twice: no two groups share a key. */
  lemma {:induction false} KeysDistinct<K>(ks: seq<K>)
    ensures forall i, j :: 0 <= i < j < |Keys(ks)| ==> Keys(ks)[i] != Keys(ks)[j]
    decreases |ks|
  {
    if ks != [] {
      KeysDistinct(ks[..|ks| - 1]);
    }
  }

  /** Every key is one of the keys it was drawn from. */
  lemma {:induction false} KeysFrom<K>(ks: seq<K>, j: nat)
    requires j < |Keys(ks)|
    ensures Keys(ks)[j] in ks
    decreases |ks|
  {
    var init := ks[..|ks| - 1];
    var r := Keys(init);
    if j < |r| {
      KeysFrom(init, j);
    }
  }

  /** The indices of `ks` that hold `k`, ascending: the members of the group
      of key `k`, in call order. */
  function Members<K(==)>(ks: seq<K>, k: K): (r: seq<nat>)
    ensures forall j :: 0 <= j < |r| ==> r[j] < |ks| && ks[r[j]] == k
    ensures forall i :: 0 <= i < |ks| && ks[i] == k ==> i in r
    ensures forall a, b :: 0 <= a < b < |r| ==> r[a] < r[b]
  {
    if ks == [] then []
    else Members(ks[..|ks| - 1], k) + (if ks[|ks| - 1] == k then [|ks| - 1] else [])
  }

  /** The members of a key over a prefix are a prefix of its members. */
  lemma {:induction false} MembersPrefix<K>(ks: seq<K>, m: nat, k: K)
    requires m <= |ks|
    ensures Members(ks[..m], k) <= Members(ks, k)
    decreases |ks| - m
  {
    if m < |ks| {
      MembersPrefix(ks, m + 1, k);
      assert ks[..m + 1][..m] == ks[..m];
    } else {
      assert ks[..m] == ks;
    }
  }

  /** The position of call `i` inside its group. */
  function Rank<K(==)>(ks: seq<K>, i: nat): (r: nat)
    requires i < |ks|
    ensures r < |Members(ks, ks[i])| && Members(ks, ks[i])[r] == i
  {
    MembersPrefix(ks, i + 1, ks[i]);
    assert ks[..i + 1][..i] == ks[..i];
    |Members(ks[..i], ks[i])|
  }

  /** `parts.join([sep])`. */
  function Join(parts: seq<string>, sep: char): string {
    if parts == [] then ""
    else if |parts| == 1 then parts[0]
    else parts[0] + [sep] + Join(parts[1..], sep)
  }

  /** `s.split(sep)`: never empty. */
  function Split(s: string, sep: char): (r: seq<string>)
    ensures |r| >= 1
  {
    if s == [] then [""]
    else if s[0] == sep then [""] + Split(s[1..], sep)
    else
      var rest := Split(s[1..], sep);
      [[s[0]] + rest[0]] + rest[1..]
  }

  lemma {:induction false} SplitPlain(a: string, sep: char)
    requires sep !in a
    ensures Split(a, sep) == [a]
  {
    if a != [] {
      SplitPlain(a[1..], sep);
      assert [a[0]] + a[1..] == a;
    }
  }

  lemma {:induction false} SplitAfter(a: string, sep: char, rest: string)
    requires sep !in a
    ensures Split(a + [sep] + rest, sep) == [a] + Split(rest, sep)
  {
    if a == [] {
      assert a + [sep] + rest == [sep] + rest;
      assert ([sep] + rest)[1..] == rest;
    } else {
      var s := a + [sep] + rest;
      assert s[1..] == a[1..] + [sep] + rest;
      SplitAfter(a[1..], sep, rest);
      assert [a[0]] + a[1..] == a;
    }
  }

  /** Joining parts that do not contain the separator and splitting again
      gives the parts back. */
  lemma {:induction false} SplitJoin(parts: seq<string>, sep: char)
    requires |parts| >= 1
    requires forall i :: 0 <= i < |parts| ==> sep !in parts[i]
    ensures Split(Join(parts, sep), sep) == parts
  {
    if |parts| == 1 {
      SplitPlain(parts[0], sep);
    } else {
      SplitAfter(parts[0], sep, Join(parts[1..], sep));
      SplitJoin(parts[1..], sep);
      assert [parts[0]] + parts[1..] == parts;
    }
  }

  /** Splitting at a separator that joins two strings splits each half. */
  lemma {:induction false} SplitConcat(x: string, sep: char, y: string)
    ensures Split(x + [sep] + y, sep) == Split(x, sep) + Split(y, sep)
  {
    var s := x + [sep] + y;
    if x == [] {
      assert s == [sep] + y;
      assert s[1..] == y;
    } else {
      assert s[0] == x[0];
      assert s[1..] == x[1..] + [sep] + y;
      SplitConcat(x[1..], sep, y);
      if x[0] != sep {
        var rest := Split(x[1..], sep);
        assert Split(s, sep) == [[x[0]] + rest[0]] + (rest[1..] + Split(y, sep)) by {
          assert (rest + Split(y, sep))[1..] == rest[1..] + Split(y, sep);
        }
      }
    }
  }

  /** The last of `states`, or `init` when there are none. */
  function LastOr<S>(init: S, states: seq<S>): S {
    if states == [] then init else states[|states| - 1]
  }

  /** `_.map(us, u => (state = step(state, u)))`: every intermediate state of
      a step function folded over `us`, or the error of the first step that
      throws. */
  function Scan<S, U, E>(step: (S, U) -> Result<S, E>, init: S, us: seq<U>): (r: Result<seq<S>, E>)
    ensures r.Ok? ==> |r.value| == |us|
    decreases |us|
  {
    if us == [] then Ok([])
    else
      match step(init, us[0])
      case Err(e) => Err(e)
      case Ok(s) =>
        match Scan(step, s, us[1..])
        case Err(e) => Err(e)
        case Ok(rest) => Ok([s] + rest)
  }

  /** Scanning `a + b` is scanning `a`, then scanning `b` from where `a` ended. */
  lemma {:induction false} ScanAppend<S, U, E>(step: (S, U) -> Result<S, E>, init: S, a: seq<U>, b: seq<U>)
    ensures Scan(step, init, a + b) ==
      match Scan(step, init, a)
      case Err(e) => Err(e)
      case Ok(ss) =>
        match Scan(step, LastOr(init, ss), b)
        case Err(e) => Err(e)
        case Ok(ts) => Ok(ss + ts)
    decreases |a|
  {
    if a == [] {
      assert a + b == b;
      match Scan(step, init, b)
      case Err(e) =>
      case Ok(ts) => assert [] + ts == ts;
    } else {
      assert (a + b)[0] == a[0];
      assert (a + b)[1..] == a[1..] + b;
      match step(init, a[0])
      case Err(e) =>
      case Ok(s) =>
        ScanAppend(step, s, a[1..], b);
        match Scan(step, s, a[1..])
        case Err(e) =>
        case Ok(rest) =>
          assert LastOr(s, rest) == LastOr(init, [s] + rest);
          match Scan(step, LastOr(s, rest), b)
          case Err(e) =>
          case Ok(ts) =>
            assert [s] + (rest + ts) == ([s] + rest) + ts;
    }
  }

  /** One more element: the scan of `a + [u]` takes one step from where the
      scan of `a` ended. */
  lemma ScanSnoc<S, U, E>(step: (S, U) -> Result<S, E>, init: S, a: seq<U>, u: U)
    ensures Scan(step, init, a + [u]) ==
      match Scan(step, init, a)
      case Err(e) => Err(e)
      case Ok(ss) =>
        match step(LastOr(init, ss), u)
        case Err(e) => Err(e)
        case Ok(s) => Ok(ss + [s])
  {
    ScanAppend(step, init, a, [u]);
    match Scan(step, init, a)
    case Err(e) =>
    case Ok(ss) =>
      assert [u][1..] == [];
      match step(LastOr(init, ss), u)
      case Err(e) =>
      case Ok(s) => assert [s] + [] == [s];
  }

  /** Once a scan has failed, scanning further elements keeps its error. */
  lemma ScanFailed<S, U, E>(step: (S, U) -> Result<S, E>, init: S, a: seq<U>, b: seq<U>)
    requires Scan(step, init, a).Err?
    ensures Scan(step, init, a + b) == Scan(step, init, a)
  {
    ScanAppend(step, init, a, b);
  }

  /** When a step keeps the `view` of its state and depends on the state only
      through that view, every state of the scan is one step from `init`. */
  lemma {:induction false} ScanIndependent<S, U, E, V>(step: (S, U) -> Result<S, E>, view: S -> V, init: S, us: seq<U>)
    requires forall s, u :: step(s, u).Ok? ==> view(step(s, u).value) == view(s)
    requires forall s1, s2, u :: view(s1) == view(s2) ==> step(s1, u) == step(s2, u)
    ensures Scan(step, init, us).Ok? <==> forall i :: 0 <= i < |us| ==> step(init, us[i]).Ok?
    ensures Scan(step, init, us).Ok? ==>
      forall i :: 0 <= i < |us| ==> Scan(step, init, us).value[i] == step(init, us[i]).value
    decreases |us|
  {
    if us != [] {
      match step(init, us[0])
      case Err(e) =>
      case Ok(s) =>
        ScanIndependent(step, view, s, us[1..]);
        forall i | 1 <= i < |us|
          ensures step(init, us[i]) == step(s, us[1..][i - 1])
        {
          assert us[i] == us[1..][i - 1];
        }
    }
  }
}
