/**
 * The documents the rating service derives around its stores: the state a
 * group starts from, what is written to the database, the cache and the log,
 * what a retrieval returns, and the ids they are kept under.
 */
module RatedDocs {
  import opened Wrappers
  import opened Values
  import opened Lists
  import opened Pricing
  import opened Rating
  import opened Stores

  /** The `udoc` of one batched call: the usage document, its log id and its id. */
  datatype UsageCall = UsageCall(u: Doc, rlogid: string, uid: Option<Value>)

  /** What one batched call receives: the rated state after its document, or
      the `{error}` shared by every call of its group. */
  datatype CallResult = Rated(doc: Doc) | Failed(error: Failure)

  function OrgOf(u: Doc): Option<Value> {
    Field(u.props, "organization_id")
  }

  function Usages(udocs: seq<UsageCall>): (us: seq<Doc>)
    ensures |us| == |udocs| && forall i :: 0 <= i < |udocs| ==> us[i] == udocs[i].u
  {
    seq(|udocs|, i requires 0 <= i < |udocs| => udocs[i].u)
  }

  // ---------------------------------------------------------------------
  // Ids.

  /** The text of a day as `[day, seqid].join('/')` writes it. */
  function DayText(d: Value): string {
    if d.Num? then IntText(d.n.Floor) else "NaN"
  }

  /** `rid`: the state id, from the organization and the UTC day of `end`. */
  function StateId(kturi: (Option<Value>, Value) -> string, u: Doc): string {
    kturi(OrgOf(u), DayValue(Field(u.props, "end")))
  }

  /** `rlogid`: the log id, from the organization, the UTC day of `end` and a
      sequence token. */
  function LogId(kturi: (Option<Value>, Value) -> string, u: Doc, seqid: string): string {
    kturi(OrgOf(u), Str(DayText(DayValue(Field(u.props, "end"))) + "/" + seqid))
  }

  /** Documents of one organization whose periods end on the same UTC day
      share a state id, whatever the time of day. */
  lemma SameDaySameState(kturi: (Option<Value>, Value) -> string, u1: Doc, u2: Doc, t1: real, t2: real)
    requires OrgOf(u1) == OrgOf(u2)
    requires Field(u1.props, "end") == Some(Num(t1)) && Field(u2.props, "end") == Some(Num(t2))
    requires TimeOf(t1).Some? && TimeOf(t2).Some?
    requires TimeOf(t1).value / MsPerDay == TimeOf(t2).value / MsPerDay
    ensures StateId(kturi, u1) == StateId(kturi, u2)
  {
    var a, b := TimeOf(t1).value, TimeOf(t2).value;
    var d := (a / MsPerDay) * MsPerDay;
    DayUnique(a, d);
    DayUnique(b, d);
  }

  // ---------------------------------------------------------------------
  // Loading.

  /** `(yield ratecache.get(id)) || (yield ratedb.get(id))`. */
  function Lookup(cache: map<string, Doc>, db: map<string, Doc>, dbUp: bool, id: string): Result<Option<Doc>, Failure> {
    if id in cache then Ok(Some(cache[id])) else Read(db, dbUp, id)
  }

  /** `{organization_id, start, end}` of the group's first document. */
  function SeedState(u: Doc): (s: Doc)
    ensures s.props.Keys <= {"organization_id", "start", "end"}
    ensures Field(s.props, "organization_id") == Field(u.props, "organization_id")
    ensures Field(s.props, "start") == Field(u.props, "start")
    ensures Field(s.props, "end") == Field(u.props, "end")
    ensures s.resources == [] && s.spaces == []
  {
    var p := Put(map[], "organization_id", Field(u.props, "organization_id"));
    var p := Put(p, "start", Field(u.props, "start"));
    Doc(Put(p, "end", Field(u.props, "end")), [], [])
  }

  /** The state a group starts from: the stored one without
      `last_rated_usage_id`, or the seed when none is stored. */
  function InitialState(found: Option<Doc>, first: Doc): Doc {
    match found
    case Some(r) => r.(props := Omit(r.props, {"last_rated_usage_id"}))
    case None => SeedState(first)
  }

  /** The outcome of one group before anything is written: load, derive the
      initial state, resolve the pricing country of the first document's
      organization, and fold the documents in order. */
  function GroupOutcome(cat: Catalog, account: Option<Value> -> AccountReply,
                        loaded: Result<Option<Doc>, Failure>, udocs: seq<UsageCall>): Result<seq<Doc>, Failure>
    requires |udocs| > 0
  {
    match loaded
    case Err(e) => Err(e)
    case Ok(found) =>
      match PricingCountry(account(OrgOf(udocs[0].u)))
      case Err(e) => Err(e)
      case Ok(pc) => Fold(cat, pc, InitialState(found, udocs[0].u), Usages(udocs))
  }

  /** A group's successful outcome has one state per document, state `i`
      being document `i` rated onto the initial state's fields. */
  lemma GroupOutcomeMeaning(cat: Catalog, account: Option<Value> -> AccountReply,
                            loaded: Result<Option<Doc>, Failure>, udocs: seq<UsageCall>)
    requires |udocs| > 0
    ensures loaded.Err? ==> GroupOutcome(cat, account, loaded, udocs) == Err(loaded.error)
    ensures account(OrgOf(udocs[0].u)).Unreachable? && loaded.Ok? ==>
              GroupOutcome(cat, account, loaded, udocs) == Err(AccountUnavailable)
    ensures GroupOutcome(cat, account, loaded, udocs).Ok? ==>
      && |GroupOutcome(cat, account, loaded, udocs).value| == |udocs|
      && var init := InitialState(loaded.value, udocs[0].u);
         var pc := PricingCountry(account(OrgOf(udocs[0].u))).value;
         forall i :: 0 <= i < |udocs| ==>
           && Rate(cat, init, udocs[i].u, pc).Ok?
           && GroupOutcome(cat, account, loaded, udocs).value[i] == Rate(cat, init, udocs[i].u, pc).value
           && GroupOutcome(cat, account, loaded, udocs).value[i].props == init.props
  {
    if loaded.Ok? && PricingCountry(account(OrgOf(udocs[0].u))).Ok? {
      var init := InitialState(loaded.value, udocs[0].u);
      var pc := PricingCountry(account(OrgOf(udocs[0].u))).value;
      FoldMeaning(cat, pc, init, Usages(udocs));
    }
  }

  // ---------------------------------------------------------------------
  // Storing.

  /** `r.dbrev` is set (truthy). */
  predicate HasDbRev(r: Doc) {
    Field(r.props, "dbrev").Some? && Truthy(Field(r.props, "dbrev").value)
  }

  /** The revision a write of state `r` carries to the database. */
  function WriteRevision(r: Doc): Option<Value> {
    if HasDbRev(r) then Field(r.props, "dbrev") else Field(r.props, "_rev")
  }

  /** `rdoc`: `r` without `dbrev`, with `id`, `last_rated_usage_id` and
      `aggregated_usage_id`. */
  function StoredDoc(r: Doc, rid: string, rlogid: string, uid: Option<Value>): (d: Doc)
    ensures "dbrev" !in d.props
    ensures Field(d.props, "id") == Some(Str(rid))
    ensures Field(d.props, "last_rated_usage_id") == Some(Str(rlogid))
    ensures Field(d.props, "aggregated_usage_id") == uid
    ensures forall k :: k !in {"dbrev", "id", "last_rated_usage_id", "aggregated_usage_id"} ==>
              Field(d.props, k) == Field(r.props, k)
    ensures d.resources == r.resources && d.spaces == r.spaces
  {
    var p := Omit(r.props, {"dbrev"});
    var p := Put(p, "id", Some(Str(rid)));
    var p := Put(p, "last_rated_usage_id", Some(Str(rlogid)));
    r.(props := Put(p, "aggregated_usage_id", uid))
  }

  /** The database copy: `rdoc` with `_id`, and `_rev` replaced by `r.dbrev`
      when that is set. */
  function DbDoc(rdoc: Doc, r: Doc, rid: string): (d: Doc)
    ensures Field(d.props, "_id") == Some(Str(rid))
    ensures Field(d.props, "_rev") == if HasDbRev(r) then Field(r.props, "dbrev") else Field(rdoc.props, "_rev")
    ensures forall k :: k != "_id" && k != "_rev" ==> Field(d.props, k) == Field(rdoc.props, k)
    ensures d.resources == rdoc.resources && d.spaces == rdoc.spaces
  {
    var p := rdoc.props["_id" := Str(rid)];
    rdoc.(props := if HasDbRev(r) then p["_rev" := Field(r.props, "dbrev").value] else p)
  }

  /** The cache copy: `rdoc` with `_id`, and `dbrev` set to the revision the
      database write returned. */
  function CacheDoc(rdoc: Doc, rid: string, rev: Value): (d: Doc)
    ensures Field(d.props, "_id") == Some(Str(rid)) && Field(d.props, "dbrev") == Some(rev)
    ensures forall k :: k != "_id" && k != "dbrev" ==> Field(d.props, k) == Field(rdoc.props, k)
    ensures d.resources == rdoc.resources && d.spaces == rdoc.spaces
  {
    rdoc.(props := rdoc.props["_id" := Str(rid)]["dbrev" := rev])
  }

  /** Every database document carries a revision token and no `dbrev`, and
      every cached document carries, as `dbrev`, the revision its database
      copy has. */
  ghost predicate Coherent(db: map<string, Doc>, cache: map<string, Doc>) {
    && (forall id :: id in db ==> "dbrev" !in db[id].props && exists n: nat :: Field(db[id].props, "_rev") == Some(Rev(n)))
    && (forall id :: id in cache ==> id in db && Field(cache[id].props, "dbrev") == Field(db[id].props, "_rev"))
  }

  /** Under coherence the state a group starts from carries exactly the
      revision the database holds, so the final write of the group cannot
      conflict: from the cache through `dbrev`, from the database through
      `_rev`, and a seed carries none for a document that does not exist. */
  lemma InitialStateRevision(cache: map<string, Doc>, db: map<string, Doc>, dbUp: bool, id: string, first: Doc)
    requires Coherent(db, cache)
    requires Lookup(cache, db, dbUp, id).Ok?
    ensures WriteRevision(InitialState(Lookup(cache, db, dbUp, id).value, first)) == Revision(db, id)
  {
    if id in cache {
      var n: nat :| Field(db[id].props, "_rev") == Some(Rev(n));
    }
  }

  /** Under coherence the final state of a group always carries the revision
      the rated-usage database holds, so storing it never conflicts: every
      state of the group keeps the initial state's revision fields. */
  lemma GroupWriteRevision(cat: Catalog, account: Option<Value> -> AccountReply,
                             cache: map<string, Doc>, db: map<string, Doc>, dbUp: bool,
                             id: string, udocs: seq<UsageCall>)
    requires |udocs| > 0 && Coherent(db, cache)
    requires GroupOutcome(cat, account, Lookup(cache, db, dbUp, id), udocs).Ok?
    ensures var states := GroupOutcome(cat, account, Lookup(cache, db, dbUp, id), udocs).value;
      |states| == |udocs| && WriteRevision(states[|states| - 1]) == Revision(db, id)
  {
    var loaded := Lookup(cache, db, dbUp, id);
    GroupOutcomeMeaning(cat, account, loaded, udocs);
    InitialStateRevision(cache, db, dbUp, id, udocs[0].u);
  }

  /** Writing state `r` through `StoredDoc`/`DbDoc` carries `r`'s write revision. */
  lemma DbDocRevision(r: Doc, rid: string, rlogid: string, uid: Option<Value>)
    ensures Field(DbDoc(StoredDoc(r, rid, rlogid, uid), r, rid).props, "_rev") == WriteRevision(r)
  {
  }

  /** Storing a state keeps the database and cache coherent. */
  lemma StoreKeepsCoherent(db: map<string, Doc>, cache: map<string, Doc>, rid: string, r: Doc,
                           rlogid: string, uid: Option<Value>, rev: nat)
    requires Coherent(db, cache)
    ensures var rdoc := StoredDoc(r, rid, rlogid, uid);
      Coherent(db[rid := Committed(DbDoc(rdoc, r, rid), rev)], cache[rid := CacheDoc(rdoc, rid, Rev(rev))])
  {
    var rdoc := StoredDoc(r, rid, rlogid, uid);
    var db' := db[rid := Committed(DbDoc(rdoc, r, rid), rev)];
    assert Field(db'[rid].props, "_rev") == Some(Rev(rev));
    assert Field(db'[rid].props, "dbrev") == None;
  }

  // ---------------------------------------------------------------------
  // Logging and retrieval.

  /** The body of a call's result: the rated state, or `{error}`. */
  function ResultDoc(r: CallResult): Doc {
    match r
    case Rated(d) => d
    case Failed(e) => Doc(map["error" := Error(e)], [], [])
  }

  /** `rlogdoc`: the call's result with `id` and `aggregated_usage_id`. */
  function LogDoc(r: CallResult, rlogid: string, uid: Option<Value>): (d: Doc)
    ensures Field(d.props, "id") == Some(Str(rlogid)) && Field(d.props, "aggregated_usage_id") == uid
    ensures forall k :: k != "id" && k != "aggregated_usage_id" ==> Field(d.props, k) == Field(ResultDoc(r).props, k)
    ensures d.resources == ResultDoc(r).resources && d.spaces == ResultDoc(r).spaces
    ensures r.Failed? ==> Field(d.props, "error") == Some(Error(r.error))
  {
    var b := ResultDoc(r);
    b.(props := Put(Put(b.props, "id", Some(Str(rlogid))), "aggregated_usage_id", uid))
  }

  /** What `logRatedUsage` writes: the log doc with `_id`. */
  function LoggedDoc(rlogdoc: Doc, rlogid: string): Doc {
    rlogdoc.(props := rlogdoc.props["_id" := Str(rlogid)])
  }

  /** A retrieved log entry, without `_id`, `_rev` and `last_rated_usage_id`;
      nothing found gives the empty object. */
  function Retrieved(found: Option<Doc>): (out: Doc)
    ensures "_id" !in out.props && "_rev" !in out.props && "last_rated_usage_id" !in out.props
    ensures found.Some? ==>
      && out.resources == found.value.resources && out.spaces == found.value.spaces
      && forall k :: k !in {"_id", "_rev", "last_rated_usage_id"} ==> Field(out.props, k) == Field(found.value.props, k)
    ensures found.None? ==> out == Doc(map[], [], [])
  {
    match found
    case Some(d) => d.(props := Omit(d.props, {"_id", "_rev", "last_rated_usage_id"}))
    case None => Doc(map[], [], [])
  }
}
