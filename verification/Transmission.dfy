/** What one POST of a market order can come back as, and how the client classifies it. */
module Transmission {
  import opened Wrappers
  import opened Ledger

  /** A 2xx body either carries the created order or cannot be read. */
  datatype Body = Parsed(order: OrderId, status: OrderStatus) | Unreadable

  datatype TransportEvent =
    | WrongEnvironment                        // the client is wired to another environment than the command
    | BeforeRequestLine                       // connect, TLS, pool, proxy, local protocol, bad URL
    | AfterRequestLine                        // any other transport error: bytes may be on the wire
    | Response(code: int, body: Body)
    | LocalError                              // any other exception

  datatype Category = BrokerTimeout | BrokerRateLimited | UnexpectedStatus | UnreadableSuccess | TransportAmbiguous

  datatype Submission =
    | Acknowledged(order: OrderId, status: OrderStatus)
    | Rejected(code: int)
    | NotTransmitted
    | Unknown(category: Category)

  /** Statuses the broker documents as a definitive refusal. */
  predicate DefiniteRefusal(code: int) {
    code == 400 || code == 401 || code == 403 || code == 404 || code == 422
  }

  predicate Success(code: int) {
    200 <= code <= 299
  }

  function Classify(signed: int, event: TransportEvent): Submission {
    if signed == 0 && !event.WrongEnvironment? then NotTransmitted
    else match event
      case WrongEnvironment => Unknown(TransportAmbiguous)
      case BeforeRequestLine => NotTransmitted
      case AfterRequestLine => Unknown(TransportAmbiguous)
      case LocalError => Unknown(TransportAmbiguous)
      case Response(code, body) =>
        if DefiniteRefusal(code) then Rejected(code)
        else if !Success(code) then
          Unknown(if code == 408 then BrokerTimeout else if code == 429 then BrokerRateLimited else UnexpectedStatus)
        else match body
          case Parsed(order, status) => Acknowledged(order, status)
          case Unreadable => Unknown(UnreadableSuccess)
  }

  /** What the outside world vouches for: `left` says whether the request line was written, `created`
      is the order the broker made of it, if any. */
  predicate Consistent(event: TransportEvent, left: bool, created: Option<OrderId>) {
    && (created.Some? ==> left)
    && (event.WrongEnvironment? || event.BeforeRequestLine? ==> !left)
    && (event.Response? ==> left)
    && (event.Response? && DefiniteRefusal(event.code) ==> created.None?)
    && (event.Response? && Success(event.code) && event.body.Parsed? ==> created == Some(event.body.order))
  }

  /** The classification never claims more than the transport proves: whatever the world did, a
      definite verdict is right about whether an order exists, and every event after which an order
      may exist without its id being known is classified unknown. */
  lemma ClassificationIsHonest(signed: int, event: TransportEvent, left: bool, created: Option<OrderId>)
    requires signed != 0 && Consistent(event, left, created)
    ensures Classify(signed, event).NotTransmitted? ==> !left && created.None?
    ensures Classify(signed, event).Rejected? ==> created.None?
    ensures Classify(signed, event).Acknowledged? ==> created == Some(Classify(signed, event).order)
    ensures created.Some? && !Classify(signed, event).Acknowledged? ==> Classify(signed, event).Unknown?
  {
  }

  /** And about what the transport and the broker say it is no more cautious than it has to be: such an
      event is classified unknown exactly when it is consistent both with an order and with none. Only
      exceptions of the process itself are treated as unknown whatever they prove. */
  lemma UnknownOnlyWhenUndecided(signed: int, event: TransportEvent, order: OrderId)
    requires signed != 0 && !event.LocalError? && !event.WrongEnvironment?
    ensures Classify(signed, event).Unknown? <==>
              Consistent(event, true, None) && Consistent(event, true, Some(order))
  {
  }

  /** Every event has exactly one verdict, by the status code and the body: acknowledged when a success was
      parsed, with the order and the status the body carries; rejected on the five documented refusals;
      never transmitted when the request line was not written or there is nothing to trade; and otherwise
      unknown, with its category. */
  lemma ClassifiedExactly(signed: int, event: TransportEvent)
    ensures var c, answered := Classify(signed, event), signed != 0 && event.Response?;
            && (forall order, status :: c == Acknowledged(order, status) <==>
                  answered && 200 <= event.code <= 299 && event.body == Parsed(order, status))
            && (forall code :: c == Rejected(code) <==>
                  answered && event.code == code && (code == 400 || code == 401 || code == 403 || code == 404 || code == 422))
            && (c == NotTransmitted <==> !event.WrongEnvironment? && (signed == 0 || event.BeforeRequestLine?))
            && (c == Unknown(BrokerTimeout) <==> answered && event.code == 408)
            && (c == Unknown(BrokerRateLimited) <==> answered && event.code == 429)
            && (c == Unknown(UnreadableSuccess) <==> answered && 200 <= event.code <= 299 && event.body.Unreadable?)
            && (c == Unknown(TransportAmbiguous) <==>
                  event.WrongEnvironment? || (signed != 0 && (event.AfterRequestLine? || event.LocalError?)))
  {
  }
}
