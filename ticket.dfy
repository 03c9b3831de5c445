/**
 * The checkout component: one mutable status, the submit handler and the
 * two callbacks it registers with each payment session. Remote calls are
 * inputs (what the order service or verification endpoint answered, or
 * that the call threw) and outputs (the request the component issued).
 */
module Ticket {
  import opened Wrappers
  import opened Registration
  import opened Payment
  import opened CheckoutStatus
  import opened CheckoutSpec

  class Checkout {
    const config: Config
    var status: Status
    /** The payment sessions opened so far; their callbacks may still fire. */
    ghost var sessions: seq<PaymentOptions>

    ghost function State(): Machine
      reads this
    {
      Machine(status, sessions)
    }

    /** A freshly mounted component is pending and has opened nothing. */
    constructor (config: Config)
      ensures this.config == config
      ensures State() == Initial
    {
      this.config := config;
      status := Pending;
      sessions := [];
    }

    /**
     * The submit handler. It rewrites blank university fields of the form
     * to "N/A" in place, posts the order, and on an answer opens a payment
     * session for that order. A throwing order call is caught: nothing is
     * opened and the status is left alone. The form is rendered, so this
     * can run, only while the status is pending.
     */
    method Submit(data: FormData, order: OrderOutcome) returns (request: Request, session: Option<PaymentOptions>)
      requires status == Pending
      modifies this`sessions, data
      ensures data.Value() == Normalized(old(data.Value()))
      ensures request == Post(OrderUrl(config.apiUrl), OrderRequest(config.ticketType, data.Value()))
      ensures status == Pending
      ensures order.OrderFailed? ==> session == None && sessions == old(sessions)
      ensures order.OrderCreated? ==>
                session == Some(OptionsFor(config, order.response, data.Value())) &&
                sessions == old(sessions) + [session.value]
      ensures State() == Step(config, old(State()), Submitted(old(data.Value()), order))
      ensures [request] == Requests(config, Submitted(old(data.Value()), order))
    {
      if data.uni_id == Some("") {
        data.uni_id := Some(NotApplicable);
      }
      if data.uni_name == Some("") {
        data.uni_name := Some(NotApplicable);
      }
      request := Post(OrderUrl(config.apiUrl), OrderRequest(config.ticketType, data.Value()));
      match order
      case OrderFailed =>
        session := None;
      case OrderCreated(response) =>
        var options := OptionsFor(config, response, data.Value());
        session := Some(options);
        sessions := sessions + [options];
    }

    /**
     * The completion handler of a session. It asks the verification
     * endpoint about the session's own order, then sets success when the
     * answer's message is the confirmation text and error otherwise. When
     * the verification call throws, no status is assigned.
     */
    method OnCompleted(session: PaymentOptions, verify: VerifyOutcome) returns (request: Request)
      requires session in sessions
      modifies this`status
      ensures request == Get(CheckPayUrl(config.apiUrl, session.order_id))
      ensures verify.Unreachable? ==> status == old(status)
      ensures verify.Responded? ==>
                (status == Success <==> verify.message == Some(ConfirmationMessage))
      ensures verify.Responded? ==>
                (status == Error <==> verify.message != Some(ConfirmationMessage))
      ensures State() == Step(config, old(State()), PaymentCompleted(session, verify))
      ensures [request] == Requests(config, PaymentCompleted(session, verify))
    {
      request := Get(CheckPayUrl(config.apiUrl, session.order_id));
      match verify
      case Unreachable =>
      case Responded(message) =>
        if message == Some(ConfirmationMessage) {
          status := Success;
        } else {
          status := Error;
        }
    }

    /** The payment-failure callback of a session: error, with no verification call. */
    method OnPaymentFailed(session: PaymentOptions)
      requires session in sessions
      modifies this`status
      ensures status == Error
      ensures State() == Step(config, old(State()), PaymentFailed(session))
    {
      status := Error;
    }
  }
}
