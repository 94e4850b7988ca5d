/**
 * The collaborators of the rating service, reduced to the get/put behaviour
 * the service relies on: the rated-usage database (revision-checked), its
 * in-memory cache, the write-once rated-usage log, and the per-key lock.
 */
module Stores {
  import opened Wrappers
  import opened Values
  import opened Rating

  /** `doc` as the database holds it after a write that gave it revision `rev`. */
  function Committed(doc: Doc, rev: nat): (d: Doc)
    ensures Field(d.props, "_rev") == Some(Rev(rev))
    ensures forall k :: k != "_rev" ==> Field(d.props, k) == Field(doc.props, k)
    ensures d.resources == doc.resources && d.spaces == doc.spaces
  {
    doc.(props := doc.props["_rev" := Rev(rev)])
  }

  /** The revision a store holds for `id`, `None` when there is no such document. */
  function Revision(docs: map<string, Doc>, id: string): Option<Value> {
    if id in docs then Field(docs[id].props, "_rev") else None
  }

  /** A read from a store: the document or nothing, or the store's
      unavailability. */
  function Read(docs: map<string, Doc>, up: bool, id: string): (r: Result<Option<Doc>, Failure>)
    ensures r.Err? <==> !up
    ensures r.Ok? ==> (r.value.Some? <==> id in docs) && (id in docs ==> r.value == Some(docs[id]))
  {
    if !up then Err(StoreUnavailable) else Ok(if id in docs then Some(docs[id]) else None)
  }

  /** A document database with optimistic concurrency: a write must carry the
      stored document's `_rev` (none for a new document) and gets a fresh one. */
  class RevisionedStore {
    var docs: map<string, Doc>
    /** The last revision handed out. */
    var clock: nat
    /** The number of successful writes. */
    var puts: nat
    /** False while retries are exhausted or the breaker is open. */
    var up: bool

    ghost predicate Valid()
      reads this
    {
      forall id :: id in docs ==>
        exists n: nat :: n <= clock && Field(docs[id].props, "_rev") == Some(Rev(n))
    }

    constructor ()
      ensures Valid() && docs == map[] && clock == 0 && puts == 0 && up
    {
      docs, clock, puts, up := map[], 0, 0, true;
    }

    method Get(id: string) returns (r: Result<Option<Doc>, Failure>)
      ensures r == Read(docs, up, id)
    {
      r := Read(docs, up, id);
    }

    /** `put(doc)`, the revision to replace being `doc._rev`. */
    method Put(id: string, doc: Doc) returns (r: Result<Value, Failure>)
      requires Valid()
      modifies this
      ensures Valid() && up == old(up)
      ensures !old(up) ==> r == Err(StoreUnavailable)
      ensures old(up) && Field(doc.props, "_rev") != old(Revision(docs, id)) ==> r == Err(RevisionConflict(id))
      ensures old(up) && Field(doc.props, "_rev") == old(Revision(docs, id)) ==> r == Ok(Rev(clock))
      ensures r.Err? ==> docs == old(docs) && clock == old(clock) && puts == old(puts)
      ensures r.Ok? ==>
        && clock == old(clock) + 1 && puts == old(puts) + 1
        && docs == old(docs)[id := Committed(doc, clock)]
        // the revision strictly advances
        && (id in old(docs) ==> exists n: nat :: n < clock && old(Revision(docs, id)) == Some(Rev(n)))
    {
      if !up {
        return Err(StoreUnavailable);
      }
      if Field(doc.props, "_rev") != Revision(docs, id) {
        return Err(RevisionConflict(id));
      }
      clock := clock + 1;
      puts := puts + 1;
      docs := docs[id := Committed(doc, clock)];
      r := Ok(Rev(clock));
    }
  }

  /** The in-memory cache of rated usage: a plain keyed copy. */
  class Cache {
    var docs: map<string, Doc>
    var puts: nat

    constructor ()
      ensures docs == map[] && puts == 0
    {
      docs, puts := map[], 0;
    }

    method Get(id: string) returns (r: Option<Doc>)
      ensures r == if id in docs then Some(docs[id]) else None
    {
      r := if id in docs then Some(docs[id]) else None;
    }

    method Put(id: string, doc: Doc)
      modifies this
      ensures docs == old(docs)[id := doc] && puts == old(puts) + 1
    {
      docs := docs[id := doc];
      puts := puts + 1;
    }
  }

  /** The rated-usage log: entries are written once and never replaced. */
  class LogStore {
    var docs: map<string, Doc>
    var puts: nat
    var up: bool

    constructor ()
      ensures docs == map[] && puts == 0 && up
    {
      docs, puts, up := map[], 0, true;
    }

    method Get(id: string) returns (r: Result<Option<Doc>, Failure>)
      ensures r == Read(docs, up, id)
    {
      r := Read(docs, up, id);
    }

    method Put(id: string, doc: Doc) returns (r: Result<(), Failure>)
      modifies this
      ensures up == old(up)
      ensures r.Ok? <==> old(up) && id !in old(docs)
      ensures !old(up) ==> r == Err(StoreUnavailable)
      ensures old(up) && id in old(docs) ==> r == Err(LogIdTaken(id))
      ensures r.Err? ==> docs == old(docs) && puts == old(puts)
      ensures r.Ok? ==> docs == old(docs)[id := doc] && puts == old(puts) + 1
    {
      if !up {
        return Err(StoreUnavailable);
      }
      if id in docs {
        return Err(LogIdTaken(id));
      }
      docs := docs[id := doc];
      puts := puts + 1;
      r := Ok(());
    }
  }

  /** Per-key mutual exclusion: the keys held, and how often a key was
      acquired and released. */
  class KeyLock {
    var held: set<string>
    var acquired: nat
    var released: nat

    constructor ()
      ensures held == {} && acquired == 0 && released == 0
    {
      held, acquired, released := {}, 0, 0;
    }

    /** `lock(key)`; in a sequential model no one else holds the key. */
    method Acquire(key: string)
      requires key !in held
      modifies this
      ensures held == old(held) + {key} && acquired == old(acquired) + 1 && released == old(released)
    {
      held := held + {key};
      acquired := acquired + 1;
    }

    /** `unlock()`. */
    method Release(key: string)
      modifies this
      ensures held == old(held) - {key} && released == old(released) + 1 && acquired == old(acquired)
    {
      held := held - {key};
      released := released + 1;
    }
  }
}
