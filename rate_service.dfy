/**
 * The usage rating service: per-key update of the rated-usage state, the
 * batch coalescer that groups concurrent calls by state id, the rating of a
 * window of usage documents with their log entries, and retrieval of a log
 * entry.
 */
module RateService {
  import opened Wrappers
  import opened Values
  import opened Lists
  import opened Pricing
  import opened Rating
  import opened Stores
  import opened RatedDocs

  /** One batched call `(u, rid, rlogid, uid)`; its index is its position. */
  datatype Call = Call(rid: string, udoc: UsageCall)

  function Rids(calls: seq<Call>): (ks: seq<string>)
    ensures |ks| == |calls| && forall i :: 0 <= i < |calls| ==> ks[i] == calls[i].rid
  {
    seq(|calls|, i requires 0 <= i < |calls| => calls[i].rid)
  }

  /** The documents of the group of state id `k`, in call order. */
  function GroupCalls(calls: seq<Call>, k: string): (g: seq<UsageCall>)
    ensures |g| == |Members(Rids(calls), k)|
    ensures forall p :: 0 <= p < |g| ==> g[p] == calls[Members(Rids(calls), k)[p]].udoc
  {
    var m := Members(Rids(calls), k);
    seq(|m|, p requires 0 <= p < |m| => calls[m[p]].udoc)
  }

  /** `zip(group, rdocs or {error})`: what the `p`-th call of a group gets. */
  function Pick(out: Result<seq<Doc>, Failure>, p: nat): CallResult
    requires out.Ok? ==> p < |out.value|
  {
    match out
    case Ok(states) => Rated(states[p])
    case Err(e) => Failed(e)
  }

  /** The `map` over a group's documents in `updateRatedUsage`: each step
      rates the next document against the state the previous step left in
      `newr`; the first failing step ends the group. `rate` is `rate` with
      the group's pricing country, `RateStep(cat, pc)`. */
  method RateGroup(rate: (Doc, Doc) -> Result<Doc, Failure>, init: Doc, udocs: seq<UsageCall>)
    returns (res: Result<seq<Doc>, Failure>)
    ensures res == Scan(rate, init, Usages(udocs))
    ensures res.Ok? ==> |res.value| == |udocs|
  {
    var us := Usages(udocs);
    var newr := init;
    var rdocs: seq<Doc> := [];
    var i := 0;
    while i < |udocs|
      invariant 0 <= i <= |udocs|
      invariant Scan(rate, init, us[..i]) == Ok(rdocs)
      invariant newr == LastOr(init, rdocs)
    {
      ScanSnoc(rate, init, us[..i], us[i]);
      assert us[..i] + [us[i]] == us[..i + 1];
      var step := rate(newr, udocs[i].u);
      if step.Err? {
        ScanFailed(rate, init, us[..i + 1], us[i + 1..]);
        assert us[..i + 1] + us[i + 1..] == us;
        return Err(step.error);
      }
      newr := step.value;
      rdocs := rdocs + [newr];
      i := i + 1;
    }
    assert us[..|udocs|] == us;
    res := Ok(rdocs);
  }

  /** The zip of a group with its outcome, put back at the calls' original
      positions (the `sortBy` on the call index). */
  method Scatter(results: seq<CallResult>, members: seq<nat>, out: Result<seq<Doc>, Failure>) returns (r: seq<CallResult>)
    requires forall q :: 0 <= q < |members| ==> members[q] < |results|
    requires forall a, b :: 0 <= a < b < |members| ==> members[a] < members[b]
    requires out.Ok? ==> |out.value| == |members|
    ensures |r| == |results|
    ensures forall q :: 0 <= q < |members| ==> r[members[q]] == Pick(out, q)
    ensures forall i :: 0 <= i < |results| && i !in members ==> r[i] == results[i]
  {
    r := results;
    var p := 0;
    while p < |members|
      invariant 0 <= p <= |members|
      invariant |r| == |results|
      invariant forall q :: 0 <= q < p ==> r[members[q]] == Pick(out, q)
      invariant forall i :: 0 <= i < |results| && i !in members[..p] ==> r[i] == results[i]
    {
      r := r[members[p] := Pick(out, p)];
      p := p + 1;
    }
    assert members[..p] == members;
  }

  /** Every call whose group has run holds its own part of its group's
      outcome. */
  ghost predicate Answered(calls: seq<Call>, results: seq<CallResult>, outcomes: map<string, Result<seq<Doc>, Failure>>)
  {
    && |results| == |calls|
    && (forall k :: k in outcomes && outcomes[k].Ok? ==> |outcomes[k].value| == |Members(Rids(calls), k)|)
    && forall i :: 0 <= i < |calls| && calls[i].rid in outcomes ==>
         results[i] == Pick(outcomes[calls[i].rid], Rank(Rids(calls), i))
  }

  /** Spreading a group's outcome over its members answers every call of
      that group, and keeps the answers of the other groups. */
  lemma ScatterAnswers(calls: seq<Call>, results: seq<CallResult>, outcomes: map<string, Result<seq<Doc>, Failure>>,
                       k: string, r: seq<CallResult>, out: Result<seq<Doc>, Failure>)
    requires Answered(calls, results, outcomes)
    requires out.Ok? ==> |out.value| == |Members(Rids(calls), k)|
    requires |r| == |calls|
    requires forall q :: 0 <= q < |Members(Rids(calls), k)| ==> r[Members(Rids(calls), k)[q]] == Pick(out, q)
    requires forall i :: 0 <= i < |r| && i !in Members(Rids(calls), k) ==> r[i] == results[i]
    ensures Answered(calls, r, outcomes[k := out])
  {
    var rids := Rids(calls);
    forall i | 0 <= i < |calls| && calls[i].rid in outcomes[k := out]
      ensures r[i] == Pick(outcomes[k := out][calls[i].rid], Rank(rids, i))
    {
      if rids[i] == k {
        var p := Rank(rids, i);
      } else {
        assert i !in Members(rids, k);
      }
    }
  }

  /** The first `g` group keys have an outcome. */
  ghost predicate Covered(keys: seq<string>, g: nat, outcomes: map<string, Result<seq<Doc>, Failure>>)
    requires g <= |keys|
  {
    forall j :: 0 <= j < g ==> keys[j] in outcomes
  }

  /** Running the group of the next key covers one key more. */
  lemma CoveredStep(keys: seq<string>, g: nat, outcomes: map<string, Result<seq<Doc>, Failure>>,
                    out: Result<seq<Doc>, Failure>)
    requires g < |keys| && Covered(keys, g, outcomes)
    ensures Covered(keys, g + 1, outcomes[keys[g] := out])
  {
  }

  /** Once every group has run, every call's group has an outcome. */
  lemma AllAnswered(calls: seq<Call>, outcomes: map<string, Result<seq<Doc>, Failure>>)
    requires Covered(Keys(Rids(calls)), |Keys(Rids(calls))|, outcomes)
    ensures forall i :: 0 <= i < |calls| ==> calls[i].rid in outcomes
  {
    var keys := Keys(Rids(calls));
    forall i | 0 <= i < |calls| ensures calls[i].rid in outcomes {
      assert Rids(calls)[i] in keys;
    }
  }

  /** What `updateRatedUsage` answers for a group whose state loads as
      `loaded`: the group's outcome, except that a group loaded from the
      cache while the database is down fails on its write. */
  function UpdateOutcome(cat: Catalog, account: Option<Value> -> AccountReply, loaded: Result<Option<Doc>, Failure>,
                         dbUp: bool, udocs: seq<UsageCall>): (r: Result<seq<Doc>, Failure>)
    requires |udocs| > 0
    ensures r.Ok? <==> dbUp && GroupOutcome(cat, account, loaded, udocs).Ok?
    ensures r.Ok? ==> r == GroupOutcome(cat, account, loaded, udocs)
    ensures GroupOutcome(cat, account, loaded, udocs).Err? ==> r == GroupOutcome(cat, account, loaded, udocs)
  {
    var plan := GroupOutcome(cat, account, loaded, udocs);
    if plan.Ok? && !dbUp then Err(StoreUnavailable) else plan
  }

  /** Store `m` holds for `id` what `m0` held. */
  ghost predicate Same(m0: map<string, Doc>, m: map<string, Doc>, id: string) {
    (id in m <==> id in m0) && (id in m ==> m[id] == m0[id])
  }

  /** Key `k` holds the last of its group's states `states` as the group's
      write stores it: in the database under the revision that write got,
      and in the cache with that revision as `dbrev`. */
  ghost predicate StoredGroup(db: map<string, Doc>, cache: map<string, Doc>, k: string,
                              states: seq<Doc>, udocs: seq<UsageCall>)
  {
    && |states| == |udocs| > 0
    && k in db && k in cache
    && var last := udocs[|udocs| - 1];
       var rdoc := StoredDoc(states[|states| - 1], k, last.rlogid, last.uid);
       match Field(db[k].props, "_rev")
       case Some(Rev(n)) =>
         db[k] == Committed(DbDoc(rdoc, states[|states| - 1], k), n) && cache[k] == CacheDoc(rdoc, k, Rev(n))
       case _ => false
  }

  /** The keys whose group wrote its state. */
  ghost function Succeeded(outcomes: map<string, Result<seq<Doc>, Failure>>): set<string> {
    set k | k in outcomes && outcomes[k].Ok?
  }

  /** Every group that succeeded holds its last state in both stores. */
  ghost predicate StoredOk(calls: seq<Call>, outcomes: map<string, Result<seq<Doc>, Failure>>,
                           cache: map<string, Doc>, db: map<string, Doc>)
  {
    forall k :: k in outcomes && outcomes[k].Ok? ==> StoredGroup(db, cache, k, outcomes[k].value, GroupCalls(calls, k))
  }

  /** Every key whose group did not succeed holds what it held when the
      batch started (`db0`, `cache0`). */
  ghost predicate Unwritten(outcomes: map<string, Result<seq<Doc>, Failure>>, cache0: map<string, Doc>,
                            db0: map<string, Doc>, cache: map<string, Doc>, db: map<string, Doc>)
  {
    forall id :: id !in Succeeded(outcomes) ==> Same(db0, db, id) && Same(cache0, cache, id)
  }

  /** What the stores hold after the groups of `outcomes` have run. */
  ghost predicate Stored(calls: seq<Call>, outcomes: map<string, Result<seq<Doc>, Failure>>,
                         cache0: map<string, Doc>, db0: map<string, Doc>, cache: map<string, Doc>, db: map<string, Doc>)
  {
    StoredOk(calls, outcomes, cache, db) && Unwritten(outcomes, cache0, db0, cache, db)
  }

  /** The write of a group's last state to key `k` at revision `n`. */
  ghost predicate WroteGroup(db: map<string, Doc>, cache: map<string, Doc>, db': map<string, Doc>,
                             cache': map<string, Doc>, k: string, states: seq<Doc>, udocs: seq<UsageCall>, n: nat)
  {
    && |states| == |udocs| > 0
    && var last := udocs[|udocs| - 1];
       var rdoc := StoredDoc(states[|states| - 1], k, last.rlogid, last.uid);
       && db' == db[k := Committed(DbDoc(rdoc, states[|states| - 1], k), n)]
       && cache' == cache[k := CacheDoc(rdoc, k, Rev(n))]
  }

  /** After that write, key `k` holds the group's last state. */
  lemma WroteStored(db: map<string, Doc>, cache: map<string, Doc>, db': map<string, Doc>,
                    cache': map<string, Doc>, k: string, states: seq<Doc>, udocs: seq<UsageCall>, n: nat)
    requires WroteGroup(db, cache, db', cache', k, states, udocs, n)
    ensures StoredGroup(db', cache', k, states, udocs)
    ensures forall id :: id != k ==> Same(db, db', id) && Same(cache, cache', id)
  {
    var last := udocs[|udocs| - 1];
    var rdoc := StoredDoc(states[|states| - 1], k, last.rlogid, last.uid);
    assert Field(db'[k].props, "_rev") == Some(Rev(n));
  }

  /** A group's write of its own key `k`, or its failure that writes
      nothing, keeps every other key's state and adds `k` to the stored
      groups exactly when it succeeds. */
  lemma StoredStep(calls: seq<Call>, outcomes: map<string, Result<seq<Doc>, Failure>>, k: string,
                   out: Result<seq<Doc>, Failure>, cache0: map<string, Doc>, db0: map<string, Doc>,
                   cache: map<string, Doc>, db: map<string, Doc>, cache': map<string, Doc>, db': map<string, Doc>,
                   n: nat)
    requires k !in outcomes && Stored(calls, outcomes, cache0, db0, cache, db)
    requires out.Err? ==> cache' == cache && db' == db
    requires out.Ok? ==> WroteGroup(db, cache, db', cache', k, out.value, GroupCalls(calls, k), n)
    ensures Stored(calls, outcomes[k := out], cache0, db0, cache', db')
  {
    if out.Ok? {
      WroteStored(db, cache, db', cache', k, out.value, GroupCalls(calls, k), n);
    }
    StoredOkStep(calls, outcomes, k, out, cache, db, cache', db');
    UnwrittenStep(outcomes, k, out, cache0, db0, cache, db, cache', db');
  }

  /** The successful groups other than `k` keep their stored states. */
  lemma StoredOkStep(calls: seq<Call>, outcomes: map<string, Result<seq<Doc>, Failure>>, k: string,
                     out: Result<seq<Doc>, Failure>, cache: map<string, Doc>, db: map<string, Doc>,
                     cache': map<string, Doc>, db': map<string, Doc>)
    requires StoredOk(calls, outcomes, cache, db)
    requires forall id :: id != k ==> Same(db, db', id) && Same(cache, cache', id)
    requires out.Ok? ==> StoredGroup(db', cache', k, out.value, GroupCalls(calls, k))
    requires out.Err? ==> k !in outcomes
    ensures StoredOk(calls, outcomes[k := out], cache', db')
  {
    var outcomes' := outcomes[k := out];
    forall j | j in outcomes' && outcomes'[j].Ok?
      ensures StoredGroup(db', cache', j, outcomes'[j].value, GroupCalls(calls, j))
    {
      if j != k {
        assert StoredGroup(db, cache, j, outcomes[j].value, GroupCalls(calls, j));
        assert Same(db, db', j) && Same(cache, cache', j);
      }
    }
  }

  /** The keys whose group did not succeed keep their states from the start. */
  lemma UnwrittenStep(outcomes: map<string, Result<seq<Doc>, Failure>>, k: string, out: Result<seq<Doc>, Failure>,
                      cache0: map<string, Doc>, db0: map<string, Doc>, cache: map<string, Doc>, db: map<string, Doc>,
                      cache': map<string, Doc>, db': map<string, Doc>)
    requires k !in outcomes && Unwritten(outcomes, cache0, db0, cache, db)
    requires forall id :: id != k ==> Same(db, db', id) && Same(cache, cache', id)
    requires out.Err? ==> cache' == cache && db' == db
    ensures Unwritten(outcomes[k := out], cache0, db0, cache', db')
  {
    SucceededStep(outcomes, k, out);
    forall id | id !in Succeeded(outcomes[k := out]) ensures Same(db0, db', id) && Same(cache0, cache', id) {
      assert id !in Succeeded(outcomes);
      if id != k {
        assert Same(db, db', id) && Same(cache, cache', id);
      }
    }
  }

  /** Giving a new key its outcome adds it to the successful keys exactly
      when that outcome is a success. */
  lemma SucceededStep(outcomes: map<string, Result<seq<Doc>, Failure>>, k: string, out: Result<seq<Doc>, Failure>)
    requires k !in outcomes
    ensures Succeeded(outcomes[k := out]) == if out.Ok? then Succeeded(outcomes) + {k} else Succeeded(outcomes)
    ensures |Succeeded(outcomes[k := out])| == |Succeeded(outcomes)| + if out.Ok? then 1 else 0
  {
    var s, s' := Succeeded(outcomes), Succeeded(outcomes[k := out]);
    if out.Ok? {
      assert s' == s + {k};
      assert k !in s;
    } else {
      assert s' == s;
    }
  }

  /** The group keys from `g` on have no outcome yet. */
  ghost predicate Pending(keys: seq<string>, g: nat, outcomes: map<string, Result<seq<Doc>, Failure>>)
  {
    forall j :: g <= j < |keys| ==> keys[j] !in outcomes
  }

  /** Giving key `g` its outcome leaves the later keys pending, because the
      keys are distinct. */
  lemma PendingStep(ks: seq<string>, g: nat, outcomes: map<string, Result<seq<Doc>, Failure>>,
                                      out: Result<seq<Doc>, Failure>)
    requires g < |Keys(ks)| && Pending(Keys(ks), g, outcomes)
    ensures Pending(Keys(ks), g + 1, outcomes[Keys(ks)[g] := out])
  {
    KeysDistinct(ks);
    var keys := Keys(ks);
    forall j | g + 1 <= j < |keys| ensures keys[j] !in outcomes[keys[g] := out] {
      assert keys[g] != keys[j];
    }
  }

  /** The log ids of the calls, in call order. */
  function LogIds(calls: seq<Call>): (ids: seq<string>)
    ensures |ids| == |calls| && forall i :: 0 <= i < |calls| ==> ids[i] == calls[i].udoc.rlogid
  {
    seq(|calls|, i requires 0 <= i < |calls| => calls[i].udoc.rlogid)
  }

  /** Call `i` is the first to use its log id, and the log did not hold it:
      the only case in which its entry can be written. */
  ghost predicate FirstLogId(calls: seq<Call>, i: nat, log: map<string, Doc>)
    requires i < |calls|
  {
    LogIds(calls)[i] !in log && LogIds(calls)[i] !in LogIds(calls)[..i]
  }

  /** Every call answered with an id so far names its own log id, and the
      log holds its result there. */
  ghost predicate Written(calls: seq<Call>, results: seq<CallResult>, ids: seq<Result<string, Failure>>,
                          log: map<string, Doc>)
    requires |ids| <= |calls| == |results|
  {
    forall j :: 0 <= j < |ids| && ids[j].Ok? ==>
      && ids[j].value == calls[j].udoc.rlogid
      && ids[j].value in log
      && log[ids[j].value] == LoggedDoc(LogDoc(results[j], ids[j].value, calls[j].udoc.uid), ids[j].value)
  }

  /** A log that keeps its entries keeps the calls written so far written. */
  lemma WrittenStep(calls: seq<Call>, results: seq<CallResult>, ids: seq<Result<string, Failure>>,
                    log: map<string, Doc>, log': map<string, Doc>, x: Result<string, Failure>)
    requires |ids| < |calls| == |results| && Written(calls, results, ids, log)
    requires forall id :: id in log ==> id in log' && log'[id] == log[id]
    requires x.Ok? ==>
      var i := |ids|;
      && x.value == calls[i].udoc.rlogid && x.value in log'
      && log'[x.value] == LoggedDoc(LogDoc(results[i], x.value, calls[i].udoc.uid), x.value)
    ensures Written(calls, results, ids + [x], log')
  {
    forall j | 0 <= j < |ids| + 1 && (ids + [x])[j].Ok?
      ensures (ids + [x])[j].value in log'
    {
      if j < |ids| {
        assert (ids + [x])[j] == ids[j];
      }
    }
  }

  /** Exactly the calls so far that first use a new log id were written. */
  ghost predicate WrittenFirst(calls: seq<Call>, ids: seq<Result<string, Failure>>, log0: map<string, Doc>)
    requires |ids| <= |calls|
  {
    forall j :: 0 <= j < |ids| ==> (ids[j].Ok? <==> FirstLogId(calls, j, log0))
  }

  lemma WrittenFirstStep(calls: seq<Call>, ids: seq<Result<string, Failure>>, log0: map<string, Doc>,
                         x: Result<string, Failure>)
    requires |ids| < |calls| && WrittenFirst(calls, ids, log0)
    requires x.Ok? <==> FirstLogId(calls, |ids|, log0)
    ensures WrittenFirst(calls, ids + [x], log0)
  {
    forall j | 0 <= j < |ids| + 1
      ensures (ids + [x])[j].Ok? <==> FirstLogId(calls, j, log0)
    {
      if j < |ids| {
        assert (ids + [x])[j] == ids[j];
      }
    }
  }

  /** The log holds exactly its former entries and the entries under `ids`. */
  ghost predicate Holds(log: map<string, Doc>, log0: map<string, Doc>, ids: seq<string>) {
    forall id :: id in log <==> id in log0 || id in ids
  }

  /** The log keeps every entry of `log0` as it was. */
  ghost predicate Kept(log0: map<string, Doc>, log: map<string, Doc>) {
    forall id :: id in log0 ==> id in log && log[id] == log0[id]
  }

  /** Logging call `i` adds its log id to the ids the log holds; it is
      written exactly when it is the first use of an id the log did not
      hold. */
  lemma LogIdStep(calls: seq<Call>, i: nat, log0: map<string, Doc>, log: map<string, Doc>, log': map<string, Doc>)
    requires i < |calls|
    requires Holds(log, log0, LogIds(calls)[..i])
    requires log'.Keys == log.Keys + {calls[i].udoc.rlogid}
    ensures calls[i].udoc.rlogid !in log <==> FirstLogId(calls, i, log0)
    ensures Holds(log', log0, LogIds(calls)[..i + 1])
  {
    assert LogIds(calls)[..i + 1] == LogIds(calls)[..i] + [calls[i].udoc.rlogid];
  }

  /** The batched call `rateUsage(u)` makes: state id, log id and the
      usage id, `seqid` standing for the sequence id generated for it. */
  function CallOf(kturi: (Option<Value>, Value) -> string, u: Doc, seqid: string): (c: Call)
    ensures c.rid == StateId(kturi, u) && c.udoc.u == u && c.udoc.rlogid == LogId(kturi, u, seqid)
    ensures c.udoc.uid == Field(u.props, "id")
  {
    Call(StateId(kturi, u), UsageCall(u, LogId(kturi, u, seqid), Field(u.props, "id")))
  }

  /** The calls `rateUsage` makes for the documents `us`, `seqids` standing
      for the sequence ids generated for them. */
  function Calls(kturi: (Option<Value>, Value) -> string, us: seq<Doc>, seqids: seq<string>): (calls: seq<Call>)
    requires |seqids| == |us|
    ensures |calls| == |us|
    ensures forall i :: 0 <= i < |us| ==> calls[i] == CallOf(kturi, us[i], seqids[i])
  {
    seq(|us|, i requires 0 <= i < |us| => CallOf(kturi, us[i], seqids[i]))
  }

  /** Documents of one organization whose periods end on the same UTC day
      are rated in one group: each is a member of the other's group. */
  lemma SameDaySameGroup(kturi: (Option<Value>, Value) -> string, us: seq<Doc>, seqids: seq<string>,
                         i: nat, j: nat, t1: real, t2: real)
    requires |seqids| == |us| && i < |us| && j < |us|
    requires OrgOf(us[i]) == OrgOf(us[j])
    requires Field(us[i].props, "end") == Some(Num(t1)) && Field(us[j].props, "end") == Some(Num(t2))
    requires TimeOf(t1).Some? && TimeOf(t2).Some?
    requires TimeOf(t1).value / MsPerDay == TimeOf(t2).value / MsPerDay
    ensures var calls := Calls(kturi, us, seqids);
      j in Members(Rids(calls), calls[i].rid) && i in Members(Rids(calls), calls[j].rid)
  {
    SameDaySameState(kturi, us[i], us[j], t1, t2);
    var calls := Calls(kturi, us, seqids);
    assert Rids(calls)[j] == calls[i].rid && Rids(calls)[i] == calls[j].rid;
  }

  class RatingService {
    /** The resource and price configuration modules. */
    const catalog: Catalog
    /** The account service, by organization id. */
    const account: Option<Value> -> AccountReply
    /** `dbclient.kturi`: a document id from a key and a time part. */
    const kturi: (Option<Value>, Value) -> string
    const ratedb: RevisionedStore
    const ratecache: Cache
    const logdb: LogStore
    const locks: KeyLock

    /** Every stored state has a revision and the cache agrees with the
        database on it. */
    ghost predicate StoresValid()
      reads ratedb, ratecache
    {
      ratedb.Valid() && Coherent(ratedb.docs, ratecache.docs)
    }

    /** Between calls, besides, no key is locked. */
    ghost predicate Valid()
      reads ratedb, ratecache, locks
    {
      StoresValid() && locks.held == {}
    }

    constructor (catalog: Catalog, account: Option<Value> -> AccountReply, kturi: (Option<Value>, Value) -> string)
      ensures Valid()
      ensures this.catalog == catalog && this.account == account && this.kturi == kturi
      ensures fresh(ratedb) && fresh(ratecache) && fresh(logdb) && fresh(locks)
      ensures ratedb.docs == map[] && ratecache.docs == map[] && logdb.docs == map[]
    {
      this.catalog := catalog;
      this.account := account;
      this.kturi := kturi;
      ratedb := new RevisionedStore();
      ratecache := new Cache();
      logdb := new LogStore();
      locks := new KeyLock();
    }

    /** `ratedUsage(id)`: the cached state, else the stored one. */
    method RatedUsage(id: string) returns (r: Result<Option<Doc>, Failure>)
      ensures r == Lookup(ratecache.docs, ratedb.docs, ratedb.up, id)
    {
      var cached := ratecache.Get(id);
      if cached.Some? {
        return Ok(cached);
      }
      r := ratedb.Get(id);
    }

    /** `storeRatedUsage`: one database write, then one cache write carrying
        the revision the database returned. */
    method StoreRatedUsage(r: Doc, rid: string, rlogid: string, uid: Option<Value>) returns (res: Result<string, Failure>)
      requires StoresValid()
      modifies ratedb, ratecache
      ensures StoresValid() && ratedb.up == old(ratedb.up)
      ensures res.Ok? <==> old(ratedb.up) && WriteRevision(r) == old(Revision(ratedb.docs, rid))
      ensures res.Err? ==> res.error == if old(ratedb.up) then RevisionConflict(rid) else StoreUnavailable
      ensures res.Err? ==>
        && ratedb.docs == old(ratedb.docs) && ratecache.docs == old(ratecache.docs)
        && ratedb.puts == old(ratedb.puts) && ratecache.puts == old(ratecache.puts)
      ensures res.Ok? ==>
        var rdoc := StoredDoc(r, rid, rlogid, uid);
        && res.value == rid
        && ratedb.puts == old(ratedb.puts) + 1 && ratecache.puts == old(ratecache.puts) + 1
        && ratedb.docs == old(ratedb.docs)[rid := Committed(DbDoc(rdoc, r, rid), ratedb.clock)]
        && ratecache.docs == old(ratecache.docs)[rid := CacheDoc(rdoc, rid, Rev(ratedb.clock))]
    {
      var rdoc := StoredDoc(r, rid, rlogid, uid);
      DbDocRevision(r, rid, rlogid, uid);
      var rrev := ratedb.Put(rid, DbDoc(rdoc, r, rid));
      if rrev.Err? {
        return Err(rrev.error);
      }
      StoreKeepsCoherent(old(ratedb.docs), ratecache.docs, rid, r, rlogid, uid, ratedb.clock);
      ratecache.Put(rid, CacheDoc(rdoc, rid, rrev.value));
      res := Ok(rid);
    }

    /** `updateRatedUsage(rid, udocs)`: under the key's lock, load the state,
        fold the group's documents through `rate` in order keeping every
        state, store only the last one, and release the lock on every exit. */
    method UpdateRatedUsage(rid: string, udocs: seq<UsageCall>) returns (res: Result<seq<Doc>, Failure>)
      requires Valid() && |udocs| > 0
      modifies ratedb, ratecache, locks
      ensures Valid()
      ensures locks.acquired == old(locks.acquired) + 1 && locks.released == old(locks.released) + 1
      ensures ratedb.up == old(ratedb.up)
      ensures res == UpdateOutcome(catalog, account, Lookup(old(ratecache.docs), old(ratedb.docs), old(ratedb.up), rid),
                                   old(ratedb.up), udocs)
      ensures res.Err? ==>
        && ratedb.docs == old(ratedb.docs) && ratecache.docs == old(ratecache.docs)
        && ratedb.puts == old(ratedb.puts) && ratecache.puts == old(ratecache.puts)
      ensures res.Ok? ==>
        var last := udocs[|udocs| - 1];
        var rdoc := StoredDoc(res.value[|udocs| - 1], rid, last.rlogid, last.uid);
        && |res.value| == |udocs|
        && ratedb.puts == old(ratedb.puts) + 1 && ratecache.puts == old(ratecache.puts) + 1
        && ratedb.docs == old(ratedb.docs)[rid := Committed(DbDoc(rdoc, res.value[|udocs| - 1], rid), ratedb.clock)]
        && ratecache.docs == old(ratecache.docs)[rid := CacheDoc(rdoc, rid, Rev(ratedb.clock))]
    {
      locks.Acquire(rid);
      var loaded := RatedUsage(rid);
      ghost var plan := GroupOutcome(catalog, account, loaded, udocs);
      if loaded.Err? {
        locks.Release(rid);
        return Err(loaded.error);
      }
      var init := InitialState(loaded.value, udocs[0].u);
      var country := PricingCountry(account(OrgOf(udocs[0].u)));
      if country.Err? {
        locks.Release(rid);
        return Err(country.error);
      }
      var pc := country.value;
      assert plan == Fold(catalog, pc, init, Usages(udocs));
      var rdocs := RateGroup(RateStep(catalog, pc), init, udocs);
      if rdocs.Err? {
        locks.Release(rid);
        return Err(rdocs.error);
      }
      var newr := rdocs.value[|udocs| - 1];
      GroupWriteRevision(catalog, account, ratecache.docs, ratedb.docs, ratedb.up, rid, udocs);

      var ludoc := udocs[|udocs| - 1];
      var stored := StoreRatedUsage(newr, rid, ludoc.rlogid, ludoc.uid);
      locks.Release(rid);
      if stored.Err? {
        return Err(stored.error);
      }
      res := rdocs;
    }

    /** One group of a batch: update the state of `k` with the group's
        documents, then put each member's result at its call's position;
        every group answered before keeps its answers. */
    method BatchGroup(calls: seq<Call>, k: string, results: seq<CallResult>,
                      ghost outcomes: map<string, Result<seq<Doc>, Failure>>)
      returns (r: seq<CallResult>, ghost out: Result<seq<Doc>, Failure>)
      requires Valid() && k in Rids(calls)
      requires Answered(calls, results, outcomes)
      modifies ratedb, ratecache, locks
      ensures Valid()
      ensures Answered(calls, r, outcomes[k := out])
      // the group's outcome is its own update, which writes only its own key
      ensures out == UpdateOutcome(catalog, account, Lookup(old(ratecache.docs), old(ratedb.docs), old(ratedb.up), k),
                                   old(ratedb.up), GroupCalls(calls, k))
      ensures ratedb.up == old(ratedb.up)
      ensures out.Err? ==>
        && ratedb.docs == old(ratedb.docs) && ratecache.docs == old(ratecache.docs)
        && ratedb.puts == old(ratedb.puts) && ratecache.puts == old(ratecache.puts)
      ensures out.Ok? ==>
        var udocs := GroupCalls(calls, k);
        var last := udocs[|udocs| - 1];
        var rdoc := StoredDoc(out.value[|udocs| - 1], k, last.rlogid, last.uid);
        && |out.value| == |udocs|
        && ratedb.puts == old(ratedb.puts) + 1 && ratecache.puts == old(ratecache.puts) + 1
        && ratedb.docs == old(ratedb.docs)[k := Committed(DbDoc(rdoc, out.value[|udocs| - 1], k), ratedb.clock)]
        && ratecache.docs == old(ratecache.docs)[k := CacheDoc(rdoc, k, Rev(ratedb.clock))]
      ensures locks.acquired == old(locks.acquired) + 1 && locks.released == old(locks.released) + 1
    {
      var members := Members(Rids(calls), k);
      var group := GroupCalls(calls, k);
      ghost var plan := GroupOutcome(catalog, account, Lookup(ratecache.docs, ratedb.docs, ratedb.up, k), group);
      GroupOutcomeMeaning(catalog, account, Lookup(ratecache.docs, ratedb.docs, ratedb.up, k), group);
      var res := UpdateRatedUsage(k, group);
      out := res;
      assert out.Ok? ==> out == plan;
      r := Scatter(results, members, res);
      ScatterAnswers(calls, results, outcomes, k, r, out);
    }

    /** Every group that has run has the outcome of its own update against
        the states `cache`, `db` the batch started from. */
    ghost predicate Planned(calls: seq<Call>, outcomes: map<string, Result<seq<Doc>, Failure>>,
                            cache: map<string, Doc>, db: map<string, Doc>, dbUp: bool)
    {
      forall k :: k in outcomes ==>
        |GroupCalls(calls, k)| > 0 &&
        outcomes[k] == UpdateOutcome(catalog, account, Lookup(cache, db, dbUp, k), dbUp, GroupCalls(calls, k))
    }

    /** `batchRateUsage`: group the calls of a batch by state id, run one
        update per group with its documents in call order, and give every
        call, in call order, its own state, or its group's error. */
    method BatchRateUsage(calls: seq<Call>) returns (results: seq<CallResult>, ghost outcomes: map<string, Result<seq<Doc>, Failure>>)
      requires Valid()
      modifies ratedb, ratecache, locks
      ensures Valid()
      ensures forall i :: 0 <= i < |calls| ==> calls[i].rid in outcomes
      ensures Answered(calls, results, outcomes)
      // each group's outcome is its own update against the stores as the batch found them
      ensures Planned(calls, outcomes, old(ratecache.docs), old(ratedb.docs), old(ratedb.up))
      // each group that succeeded stored its last state; nothing else changed
      ensures Stored(calls, outcomes, old(ratecache.docs), old(ratedb.docs), ratecache.docs, ratedb.docs)
      ensures ratedb.up == old(ratedb.up)
      // one lock/update cycle per group, and one write to each store per successful group
      ensures locks.acquired == old(locks.acquired) + |Keys(Rids(calls))|
      ensures locks.released == old(locks.released) + |Keys(Rids(calls))|
      ensures ratedb.puts == old(ratedb.puts) + |Succeeded(outcomes)|
      ensures ratecache.puts == old(ratecache.puts) + |Succeeded(outcomes)|
    {
      var rids := Rids(calls);
      var keys := Keys(rids);
      // every slot is overwritten below: each call belongs to one group
      results := seq(|calls|, i => Failed(StoreUnavailable));
      outcomes := map[];
      var g := 0;
      while g < |keys|
        invariant 0 <= g <= |keys|
        invariant Valid()
        invariant Covered(keys, g, outcomes) && Pending(keys, g, outcomes)
        invariant ratedb.up == old(ratedb.up)
        invariant Stored(calls, outcomes, old(ratecache.docs), old(ratedb.docs), ratecache.docs, ratedb.docs)
        invariant Planned(calls, outcomes, old(ratecache.docs), old(ratedb.docs), old(ratedb.up))
        invariant Answered(calls, results, outcomes)
        invariant locks.acquired == old(locks.acquired) + g && locks.released == old(locks.released) + g
        invariant ratedb.puts == old(ratedb.puts) + |Succeeded(outcomes)|
        invariant ratecache.puts == old(ratecache.puts) + |Succeeded(outcomes)|
      {
        var k := keys[g];
        KeysFrom(rids, g);
        ghost var out;
        ghost var db, cache := ratedb.docs, ratecache.docs;
        assert Same(old(ratedb.docs), db, k) && Same(old(ratecache.docs), cache, k);
        assert Lookup(cache, db, ratedb.up, k) == Lookup(old(ratecache.docs), old(ratedb.docs), ratedb.up, k);
        results, out := BatchGroup(calls, k, results, outcomes);
        CoveredStep(keys, g, outcomes, out);
        PendingStep(rids, g, outcomes, out);
        StoredStep(calls, outcomes, k, out, old(ratecache.docs), old(ratedb.docs), cache, db,
                   ratecache.docs, ratedb.docs, ratedb.clock);
        SucceededStep(outcomes, k, out);
        outcomes := outcomes[k := out];
        g := g + 1;
      }
      AllAnswered(calls, outcomes);
    }

    /** `logRatedUsage`: write the log document under its id. */
    method LogRatedUsage(rlogdoc: Doc, rlogid: string) returns (r: Result<Doc, Failure>)
      modifies logdb
      ensures r.Ok? <==> old(logdb.up) && rlogid !in old(logdb.docs)
      ensures !old(logdb.up) ==> r == Err(StoreUnavailable)
      ensures r.Ok? ==> r.value == rlogdoc && logdb.docs == old(logdb.docs)[rlogid := LoggedDoc(rlogdoc, rlogid)]
      ensures r.Err? ==> logdb.docs == old(logdb.docs)
      ensures logdb.up == old(logdb.up)
    {
      var put := logdb.Put(rlogid, LoggedDoc(rlogdoc, rlogid));
      if put.Err? {
        return Err(put.error);
      }
      r := Ok(rlogdoc);
    }

    /** The logging half of `rateUsage`, call by call: each result is logged
        under the call's log id together with the call's usage id. */
    method LogResults(calls: seq<Call>, results: seq<CallResult>) returns (ids: seq<Result<string, Failure>>)
      requires |results| == |calls|
      modifies logdb
      ensures |ids| == |calls|
      ensures forall i :: 0 <= i < |calls| && ids[i].Ok? ==>
        && ids[i].value == calls[i].udoc.rlogid
        && ids[i].value in logdb.docs
        && logdb.docs[ids[i].value] == LoggedDoc(LogDoc(results[i], ids[i].value, calls[i].udoc.uid), ids[i].value)
      ensures !old(logdb.up) ==> forall i :: 0 <= i < |calls| ==> ids[i] == Err(StoreUnavailable)
      // while the log is up, exactly the first use of each new log id is written
      ensures old(logdb.up) ==> WrittenFirst(calls, ids, old(logdb.docs))
      ensures old(logdb.up) ==> Holds(logdb.docs, old(logdb.docs), LogIds(calls))
      ensures !old(logdb.up) ==> logdb.docs == old(logdb.docs)
      ensures logdb.up == old(logdb.up)
      // the log only grows
      ensures Kept(old(logdb.docs), logdb.docs)
    {
      ids := [];
      var i := 0;
      while i < |calls|
        invariant 0 <= i <= |calls| && |ids| == i
        invariant logdb.up == old(logdb.up)
        invariant Written(calls, results, ids, logdb.docs)
        invariant !old(logdb.up) ==> forall j :: 0 <= j < i ==> ids[j] == Err(StoreUnavailable)
        invariant Kept(old(logdb.docs), logdb.docs)
        invariant old(logdb.up) ==> WrittenFirst(calls, ids, old(logdb.docs))
        invariant old(logdb.up) ==> Holds(logdb.docs, old(logdb.docs), LogIds(calls)[..i])
        invariant !old(logdb.up) ==> logdb.docs == old(logdb.docs)
      {
        var rlogid := calls[i].udoc.rlogid;
        ghost var log := logdb.docs;
        var logged := LogRatedUsage(LogDoc(results[i], rlogid, calls[i].udoc.uid), rlogid);
        var x := if logged.Ok? then Ok(rlogid) else Err(logged.error);
        if old(logdb.up) {
          assert logdb.docs.Keys == log.Keys + {rlogid};
          LogIdStep(calls, i, old(logdb.docs), log, logdb.docs);
          WrittenFirstStep(calls, ids, old(logdb.docs), x);
        }
        WrittenStep(calls, results, ids, log, logdb.docs, x);
        ids := ids + [x];
        i := i + 1;
      }
      assert LogIds(calls)[..i] == LogIds(calls);
    }

    /** `rateUsage` for the calls that share one batch: each usage document
        `us[i]`, with its sequence id `seqids[i]`, is rated through the
        batch, then its result is logged under its own log id. */
    method RateUsage(us: seq<Doc>, seqids: seq<string>) returns (ids: seq<Result<string, Failure>>, results: seq<CallResult>, ghost outcomes: map<string, Result<seq<Doc>, Failure>>)
      requires Valid() && |seqids| == |us|
      modifies ratedb, ratecache, locks, logdb
      ensures Valid() && ratedb.up == old(ratedb.up) && logdb.up == old(logdb.up)
      ensures var calls := Calls(kturi, us, seqids);
        && (forall i :: 0 <= i < |us| ==> StateId(kturi, us[i]) in outcomes)
        && Answered(calls, results, outcomes)
        && Planned(calls, outcomes, old(ratecache.docs), old(ratedb.docs), old(ratedb.up))
        && Stored(calls, outcomes, old(ratecache.docs), old(ratedb.docs), ratecache.docs, ratedb.docs)
        && ratedb.puts == old(ratedb.puts) + |Succeeded(outcomes)|
        && ratecache.puts == old(ratecache.puts) + |Succeeded(outcomes)|
      ensures |ids| == |us|
      // every answered call names its log entry, which holds its result
      ensures forall i :: 0 <= i < |us| && ids[i].Ok? ==>
        && ids[i].value == LogId(kturi, us[i], seqids[i])
        && ids[i].value in logdb.docs
        && logdb.docs[ids[i].value] ==
             LoggedDoc(LogDoc(results[i], ids[i].value, Field(us[i].props, "id")), ids[i].value)
      ensures !old(logdb.up) ==> forall i :: 0 <= i < |us| ==> ids[i] == Err(StoreUnavailable)
      // while the log is up, the first use of each new log id is written
      ensures old(logdb.up) ==> WrittenFirst(Calls(kturi, us, seqids), ids, old(logdb.docs))
      // and the log then holds exactly its former entries and the calls' log ids
      ensures old(logdb.up) ==> Holds(logdb.docs, old(logdb.docs), LogIds(Calls(kturi, us, seqids)))
      ensures !old(logdb.up) ==> logdb.docs == old(logdb.docs)
      // the log only grows
      ensures Kept(old(logdb.docs), logdb.docs)
    {
      var calls := Calls(kturi, us, seqids);
      results, outcomes := BatchRateUsage(calls);
      ids := LogResults(calls, results);
    }

    /** The route that reads a log entry back: the id of organization `org`,
        day `day` and sequence `seqid`, and the entry without `_id`, `_rev`
        and `last_rated_usage_id`. */
    method GetRatedUsage(org: string, day: string, seqid: string) returns (r: Result<Doc, Failure>)
      ensures var id := kturi(Some(Str(org)), Str(day + "/" + seqid));
        r == if logdb.up then Ok(Retrieved(if id in logdb.docs then Some(logdb.docs[id]) else None))
             else Err(StoreUnavailable)
    {
      var found := logdb.Get(kturi(Some(Str(org)), Str(day + "/" + seqid)));
      if found.Err? {
        return Err(found.error);
      }
      r := Ok(Retrieved(found.value));
    }
  }
}
