/**
 * Message handling of the curation consumer (acura/internal/mq.py): the license key is
 * read from the JSON body, the subscriber is looked up, the curation pipeline runs, and
 * the message is settled exactly once — acknowledged when tracks were added, rejected
 * otherwise. The subscriber lookup and the pipeline are oracles: the functions `lookup`
 * and `curate` give their outcome for each argument.
 */
module Mq {
  import opened Wrappers

  /** A JSON value as far as the handler looks at it: its type and its Python truthiness. */
  datatype JsonValue = JString(s: string) | JNull | JOther(truthy: bool)

  /** The message body: not JSON at all, JSON that is not an object, or an object. */
  datatype Body = Malformed | NonObject | Object(license: Option<JsonValue>)

  /** The exceptions that can occur while a message is handled. */
  datatype Exc =
    | TypeError         // indexing a decoded non-object with "license"
    | KeyError          // an object without "license"
    | ValueError        // no license key, or no subscriber for it
    | LookupError       // the subscriber query itself raised
    | RuntimeError      // curation raised
    | MessageProcessError  // ack or reject on a message already settled

  datatype LookupOutcome = Found(sid: int) | NotFound | LookupRaised
  datatype CurateOutcome = Curated(added: int) | CurateRaised

  /** A settling call as the handler writes it; `Reject(None)` is a bare `reject()`. */
  datatype Action = Ack | Reject(requeue: Option<bool>)

  /** What the broker is told: acknowledged, or rejected with the requeue flag in effect. */
  datatype Settlement = Acked | Rejected(requeue: bool)

  /** The `requeue` default of the client library's `reject`. */
  const LIBRARY_DEFAULT_REQUEUE: bool := false

  function Truthy(v: Option<JsonValue>): bool {
    match v
    case None => false
    case Some(JString(s)) => s != ""
    case Some(JNull) => false
    case Some(JOther(t)) => t
  }

  /** `__extract_license_key`: the "license" field, None for an undecodable body, else it raises. */
  function ExtractLicenseKey(body: Body): (r: Result<Option<JsonValue>, Exc>)
    ensures r == Success(None) <==> body.Malformed?
    ensures body.Object? && body.license.Some? ==> r == Success(body.license)
    ensures body.NonObject? ==> r == Failure(TypeError)
    ensures body == Object(None) ==> r == Failure(KeyError)
  {
    match body
    case Malformed => Success(None)
    case NonObject => Failure(TypeError)
    case Object(license) =>
      if license.Some? then Success(license) else Failure(KeyError)
  }

  /**
   * The statements of the `process` block up to the settling call: the number of added
   * items, or the exception that leaves the block before any settling call.
   */
  function Outcome(body: Body, lookup: JsonValue -> LookupOutcome, curate: int -> CurateOutcome): Result<int, Exc> {
    var key := ExtractLicenseKey(body);
    if key.Failure? then Failure(key.error)
    else if !Truthy(key.value) then Failure(ValueError)
    else match lookup(key.value.value)
      case LookupRaised => Failure(LookupError)
      case NotFound => Failure(ValueError)
      case Found(sid) =>
        match curate(sid)
        case CurateRaised => Failure(RuntimeError)
        case Curated(n) => Success(n)
  }

  /** The one settling call a fresh message receives. */
  function Disposition(body: Body, lookup: JsonValue -> LookupOutcome, curate: int -> CurateOutcome): (a: Action)
    ensures a == Ack <==>
              var key := ExtractLicenseKey(body);
              key.Success? && Truthy(key.value) && lookup(key.value.value).Found?
              && curate(lookup(key.value.value).sid).Curated?
              && curate(lookup(key.value.value).sid).added > 0
    ensures a == Reject(None) <==>
              var key := ExtractLicenseKey(body);
              key.Success? && Truthy(key.value) && lookup(key.value.value).Found?
              && curate(lookup(key.value.value).sid).Curated?
              && curate(lookup(key.value.value).sid).added <= 0
    ensures !body.Object? || !Truthy(body.license) ==> a == Reject(Some(false))
    ensures body.Object? && Truthy(body.license) && lookup(body.license.value) == NotFound ==>
              a == Reject(Some(false))
    ensures body.Object? && Truthy(body.license) && lookup(body.license.value).Found? ==>
              (curate(lookup(body.license.value).sid) == CurateRaised ==> a == Reject(Some(false)))
  {
    match Outcome(body, lookup, curate)
    case Failure(_) => Reject(Some(false))
    case Success(n) => if n > 0 then Ack else Reject(None)
  }

  function Effect(a: Action): Settlement {
    match a
    case Ack => Acked
    case Reject(requeue) => Rejected(requeue.GetOr(LIBRARY_DEFAULT_REQUEUE))
  }

  /** No outcome puts the message back on the queue, whatever the comment at the bare `reject()` says. */
  lemma NeverRequeued(body: Body, lookup: JsonValue -> LookupOutcome, curate: int -> CurateOutcome)
    ensures Effect(Disposition(body, lookup, curate)) != Rejected(true)
  {
  }

  /** A delivered message; it can be settled once, later `ack`/`reject` calls raise. */
  class IncomingMessage {
    const body: Body
    var processed: bool
    var settlements: seq<Settlement>

    ghost predicate Valid()
      reads this
    {
      |settlements| <= 1 && (processed <==> |settlements| == 1)
    }

    constructor(body: Body)
      ensures Valid() && this.body == body && !processed && settlements == []
    {
      this.body := body;
      processed := false;
      settlements := [];
    }

    method Settle(a: Action) returns (r: Result<(), Exc>)
      requires Valid()
      modifies this
      ensures Valid()
      ensures old(processed) ==> r == Failure(MessageProcessError) && processed && settlements == old(settlements)
      ensures !old(processed) ==> r == Success(()) && processed && settlements == [Effect(a)]
    {
      if processed {
        return Failure(MessageProcessError);
      }
      processed := true;
      settlements := [Effect(a)];
      return Success(());
    }
  }

  /**
   * `__process_message`. The `process` context (ignore_processed=True) rejects without
   * requeue when an exception leaves it and the message is unsettled; the outer handler
   * logs the exception and calls `reject(requeue=False)` once more, which raises and is
   * logged too. No exception leaves the method: `logged` lists what was logged.
   */
  method ProcessMessage(msg: IncomingMessage, lookup: JsonValue -> LookupOutcome, curate: int -> CurateOutcome)
    returns (logged: seq<Exc>)
    requires msg.Valid()
    modifies msg
    ensures msg.Valid() && msg.processed
    ensures !old(msg.processed) ==> msg.settlements == [Effect(Disposition(msg.body, lookup, curate))]
    ensures old(msg.processed) ==> msg.settlements == old(msg.settlements)
    ensures !old(msg.processed) && Outcome(msg.body, lookup, curate).Success? ==> logged == []
    ensures !old(msg.processed) && Outcome(msg.body, lookup, curate).Failure? ==>
              logged == [Outcome(msg.body, lookup, curate).error, MessageProcessError]
    ensures old(msg.processed) ==> |logged| == 2 && logged[1] == MessageProcessError
  {
    var raised: Option<Exc> := None;
    var key := ExtractLicenseKey(msg.body);
    if key.Failure? {
      raised := Some(key.error);
    } else if !Truthy(key.value) {
      raised := Some(ValueError);
    } else {
      match lookup(key.value.value)
      case LookupRaised => raised := Some(LookupError);
      case NotFound => raised := Some(ValueError);
      case Found(sid) =>
        match curate(sid)
        case CurateRaised => raised := Some(RuntimeError);
        case Curated(n) =>
          var settled;
          if n > 0 {
            settled := msg.Settle(Ack);
          } else {
            settled := msg.Settle(Reject(None));
          }
          if settled.Failure? {
            raised := Some(settled.error);
          }
    }
    logged := [];
    if raised.Some? {
      // leaving the `process` block with an exception
      if !msg.processed {
        var _ := msg.Settle(Reject(Some(false)));
      }
      logged := [raised.value];
      var again := msg.Settle(Reject(Some(false)));
      logged := logged + [again.error];
    }
  }
}
