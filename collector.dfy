/**
 * The usage collector: validate a submitted usage document, enqueue it, and
 * answer 202 with the document's location, or the status and body of the
 * step that failed.
 */
module Collector {
  import opened Wrappers
  import opened Values
  import opened Lists

  /** A submitted usage document: the six ids its location is built from,
      its `end` time, and every other field. */
  datatype UsageDoc = UsageDoc(
    organizationId: string,
    spaceId: string,
    consumerId: string,
    resourceId: string,
    planId: string,
    resourceInstanceId: string,
    end: int,
    other: Props)

  /** A collect outcome: the status, the error body when there is one, and
      the `Location` header of an accepted document. */
  datatype Response = Response(status: int, body: Option<Props>, location: Option<string>)

  const Accepted := 202
  const BadRequest := 400
  const UnavailableForLegalReasons := 451
  const InternalServerError := 500

  function Ids(doc: UsageDoc): (ids: seq<string>)
    ensures |ids| == 6
  {
    [doc.organizationId, doc.spaceId, doc.consumerId, doc.resourceId, doc.planId, doc.resourceInstanceId]
  }

  /** The document's key: its six ids, `/`-separated. */
  function Key(doc: UsageDoc): string {
    Join(Ids(doc), '/')
  }

  /** `getLocation`: the collected-usage URL of `doc` under `baseUrl`,
      `pad16` being the zero-padding of the end time. */
  function Location(doc: UsageDoc, baseUrl: string, pad16: int -> string): string {
    baseUrl + "/v1/metering/collected/usage/t/" + pad16(doc.end) + "/k/" + Key(doc)
  }

  predicate SlashFree(doc: UsageDoc) {
    forall i :: 0 <= i < 6 ==> '/' !in Ids(doc)[i]
  }

  /** The location ends in the document's six ids: splitting it at `/`
      gives them back as its last six parts, when no id holds a `/`. */
  lemma LocationIds(doc: UsageDoc, baseUrl: string, pad16: int -> string)
    requires SlashFree(doc)
    ensures var parts := Split(Location(doc, baseUrl, pad16), '/');
      |parts| >= 6 && parts[|parts| - 6..] == Ids(doc)
  {
    var head := baseUrl + "/v1/metering/collected/usage/t/" + pad16(doc.end) + "/k";
    assert Location(doc, baseUrl, pad16) == head + ['/'] + Key(doc);
    SplitConcat(head, '/', Key(doc));
    SplitJoin(Ids(doc), '/');
    var parts := Split(head, '/') + Ids(doc);
    assert parts[|parts| - 6..] == Ids(doc);
  }

  /** Two documents with slash-free ids share a location only when they
      share all six ids. */
  lemma LocationDistinguishes(a: UsageDoc, b: UsageDoc, baseUrl: string, pad16: int -> string)
    requires SlashFree(a) && SlashFree(b)
    requires Location(a, baseUrl, pad16) == Location(b, baseUrl, pad16)
    ensures Ids(a) == Ids(b)
  {
    LocationIds(a, baseUrl, pad16);
    LocationIds(b, baseUrl, pad16);
  }

  /** Whether the thrown error has a truthy field `k`. */
  predicate Flag(error: Props, k: string) {
    k in error && Truthy(error[k])
  }

  /** The status a validation error maps to: 451 for an unsupported
      license, else 400 for a bad request, else 500. */
  method StatusOf(error: Props) returns (status: int)
    ensures Flag(error, "unsupportedLicense") ==> status == UnavailableForLegalReasons
    ensures !Flag(error, "unsupportedLicense") && Flag(error, "badRequest") ==> status == BadRequest
    ensures !Flag(error, "unsupportedLicense") && !Flag(error, "badRequest") ==> status == InternalServerError
  {
    status := InternalServerError;
    if Flag(error, "badRequest") {
      status := BadRequest;
    }
    if Flag(error, "unsupportedLicense") {
      status := UnavailableForLegalReasons;
    }
  }

  /** The status `StatusOf` computes, as one expression. */
  function ValidationStatus(error: Props): int {
    if Flag(error, "unsupportedLicense") then UnavailableForLegalReasons
    else if Flag(error, "badRequest") then BadRequest
    else InternalServerError
  }

  /** The returnable of a failed validation: the error's own fields, named
      after the status. */
  function ValidationFailure(error: Props): (r: Response)
    ensures r.status in {BadRequest, UnavailableForLegalReasons, InternalServerError}
    ensures r.body.Some? && r.location.None?
    ensures Field(r.body.value, "name") == Some(Str("Validation error: status code " + IntText(r.status)))
    ensures forall k :: k != "name" ==> Field(r.body.value, k) == Field(error, k)
  {
    var status := ValidationStatus(error);
    Response(status, Some(error["name" := Str("Validation error: status code " + IntText(status))]), None)
  }

  /** The returnable of a failed enqueue. */
  function EnqueueFailure(error: Props): (r: Response)
    ensures r.status == InternalServerError && r.body.Some? && r.location.None?
    ensures Field(r.body.value, "name") == Some(Str("Enqueue error"))
    ensures forall k :: k != "name" ==> Field(r.body.value, k) == Field(error, k)
  {
    Response(InternalServerError, Some(error["name" := Str("Enqueue error")]), None)
  }

  /** What the validator is given: the document without `processed_id`. */
  function Unprocessed(doc: UsageDoc): (d: UsageDoc)
    ensures "processed_id" !in d.other && Ids(d) == Ids(doc) && d.end == doc.end
    ensures forall k :: k != "processed_id" ==> Field(d.other, k) == Field(doc.other, k)
  {
    doc.(other := Omit(doc.other, {"processed_id"}))
  }

  /** The response of `collect`, given the validator's verdict (`None` when
      it accepts, the error it throws otherwise) and the queue's failure
      (`None` when the send goes through). */
  function Outcome(verdict: Option<Props>, sendFailure: Option<Props>, doc: UsageDoc,
                   baseUrl: string, pad16: int -> string): (r: Response)
    ensures r.status == Accepted <==> verdict.None? && sendFailure.None?
    ensures r.status == Accepted ==> r.location == Some(Location(doc, baseUrl, pad16)) && r.body.None?
    ensures verdict.Some? ==> r == ValidationFailure(verdict.value)
    ensures verdict.None? && sendFailure.Some? ==> r == EnqueueFailure(sendFailure.value)
  {
    match verdict
    case Some(e) => ValidationFailure(e)
    case None =>
      match sendFailure
      case Some(e) => EnqueueFailure(e)
      case None => Response(Accepted, None, Some(Location(doc, baseUrl, pad16)))
  }

  /** The queue the collector sends to; `failure` is what a send throws while
      the queue cannot take documents. */
  class Producer {
    var queue: seq<UsageDoc>
    var failure: Option<Props>

    constructor ()
      ensures queue == [] && failure.None?
    {
      queue, failure := [], None;
    }

    method Send(doc: UsageDoc) returns (r: Option<Props>)
      modifies this
      ensures r == old(failure) && failure == old(failure)
      ensures r.None? ==> queue == old(queue) + [doc]
      ensures r.Some? ==> queue == old(queue)
    {
      r := failure;
      if failure.None? {
        queue := queue + [doc];
      }
    }
  }

  class Collector {
    /** `validator.validate(doc, authToken)`: `None` when it resolves, the
        error otherwise. */
    const validator: (UsageDoc, string) -> Option<Props>
    const producer: Producer
    const pad16: int -> string

    constructor (validator: (UsageDoc, string) -> Option<Props>, producer: Producer, pad16: int -> string)
      ensures this.validator == validator && this.producer == producer && this.pad16 == pad16
    {
      this.validator := validator;
      this.producer := producer;
      this.pad16 := pad16;
    }

    /** `validate`: `None` when the document is valid, else the returnable
        of the failure. */
    method Validate(doc: UsageDoc, authToken: string) returns (r: Option<Response>)
      ensures validator(Unprocessed(doc), authToken).None? ==> r.None?
      ensures validator(Unprocessed(doc), authToken).Some? ==>
        r == Some(ValidationFailure(validator(Unprocessed(doc), authToken).value))
    {
      var verdict := validator(Unprocessed(doc), authToken);
      if verdict.None? {
        return None;
      }
      var status := StatusOf(verdict.value);
      r := Some(Response(status, Some(verdict.value["name" := Str("Validation error: status code " + IntText(status))]), None));
    }

    /** `send`: `None` when the document is enqueued, else the returnable of
        the failure. */
    method Send(doc: UsageDoc) returns (r: Option<Response>)
      modifies producer
      ensures producer.failure == old(producer.failure)
      ensures r.None? <==> old(producer.failure).None?
      ensures r.None? ==> producer.queue == old(producer.queue) + [doc]
      ensures r.Some? ==> r.value == EnqueueFailure(old(producer.failure).value) && producer.queue == old(producer.queue)
    {
      var failure := producer.Send(doc);
      if failure.None? {
        return None;
      }
      r := Some(EnqueueFailure(failure.value));
    }

    /** `collect`: validate, then send; a document that fails validation is
        never enqueued. */
    method Collect(doc: UsageDoc, authToken: string, baseUrl: string) returns (resp: Response)
      modifies producer
      ensures resp == Outcome(validator(Unprocessed(doc), authToken), old(producer.failure), doc, baseUrl, pad16)
      ensures producer.failure == old(producer.failure)
      ensures producer.queue == if resp.status == Accepted then old(producer.queue) + [doc] else old(producer.queue)
    {
      var invalid := Validate(doc, authToken);
      if invalid.Some? {
        return invalid.value;
      }
      var unsent := Send(doc);
      if unsent.Some? {
        return unsent.value;
      }
      resp := Response(Accepted, None, Some(Location(doc, baseUrl, pad16)));
    }
  }

  /** `monitoredCollector`: the same collector, with metrics around
      `collect`. */
  class MonitoredCollector {
    const original: Collector

    constructor (original: Collector)
      ensures this.original == original
    {
      this.original := original;
    }

    method Collect(doc: UsageDoc, authToken: string, baseUrl: string) returns (resp: Response)
      modifies original.producer
      ensures resp == Outcome(original.validator(Unprocessed(doc), authToken), old(original.producer.failure),
                              doc, baseUrl, original.pad16)
      ensures original.producer.failure == old(original.producer.failure)
      ensures original.producer.queue ==
        if resp.status == Accepted then old(original.producer.queue) + [doc] else old(original.producer.queue)
    {
      resp := original.Collect(doc, authToken, baseUrl);
    }
  }
}
