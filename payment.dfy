/**
 * The values exchanged with the order service, the payment widget and the
 * verification endpoint, and the pure decisions the checkout takes on them.
 */
module Payment {
  import opened Wrappers
  import opened Registration
  import opened CheckoutStatus

  /**
   * What the component receives from outside: its ticket-type property, the
   * public API base URL and the payment provider's public key.
   */
  datatype Config = Config(ticketType: string, apiUrl: string, razorpayKey: string)

  /** The body of POST /order. */
  datatype OrderRequest = OrderRequest(ticket_type: string, ticket_data: RegistrationData)

  /** The fields of the order service's answer that the component reads. */
  datatype OrderResponse = OrderResponse(id: string, amount: int, currency: string)

  /** The POST /order call either throws or answers with an order. */
  datatype OrderOutcome = OrderFailed | OrderCreated(response: OrderResponse)

  datatype Prefill = Prefill(name: string, email: string, contact: string)

  /** The options a payment session is opened with (the handler is the completion callback). */
  datatype PaymentOptions = PaymentOptions(
    key: string,
    amount: int,
    currency: string,
    name: string,
    description: string,
    image: string,
    order_id: string,
    prefill: Prefill,
    themeColor: string)

  /**
   * The GET /check-pay call either throws (a network failure or a non-2xx
   * answer) or answers with a body whose `message` may be missing.
   */
  datatype VerifyOutcome = Unreachable | Responded(message: Option<string>)

  /** A remote call the component issues. */
  datatype Request = Post(url: string, body: OrderRequest) | Get(url: string)

  const OrderPath: string := "/order"
  const CheckPayPath: string := "/check-pay/"
  const ConfirmationMessage: string := "Email sent successfully"
  const ShopName: string := "RCS CTF 2024"
  const ShopDescription: string := "RCS CTF 2024 Ticket"
  const ShopImage: string := "https://rcs.encryptedge.in/favicon.ico"
  const ThemeColor: string := "#531062"

  function OrderUrl(apiUrl: string): string {
    apiUrl + OrderPath
  }

  /** The order id a verification URL under `apiUrl` asks about. */
  function OrderIdOf(apiUrl: string, url: string): string
    requires |url| >= |apiUrl| + |CheckPayPath|
  {
    url[|apiUrl| + |CheckPayPath|..]
  }

  /** The verification URL for an order: it stays under the API base and names exactly that order. */
  function CheckPayUrl(apiUrl: string, orderId: string): (url: string)
    ensures |url| >= |apiUrl| + |CheckPayPath| && url[..|apiUrl|] == apiUrl
    ensures url[|apiUrl|..|apiUrl| + |CheckPayPath|] == CheckPayPath
    ensures OrderIdOf(apiUrl, url) == orderId
  {
    apiUrl + CheckPayPath + orderId
  }

  /** The order a payment session was opened for, read back from its options. */
  function ResponseOf(o: PaymentOptions): OrderResponse {
    OrderResponse(o.order_id, o.amount, o.currency)
  }

  /**
   * The options of the session opened for an order: they carry the order's
   * id, amount and currency unchanged and prefill the payer from the form.
   */
  function OptionsFor(cfg: Config, response: OrderResponse, form: RegistrationData): (o: PaymentOptions)
    ensures ResponseOf(o) == response
    ensures o.prefill.name == form.name && o.prefill.email == form.email
    ensures o.prefill.contact == form.contact_no
    ensures o.key == cfg.razorpayKey
  {
    PaymentOptions(
      cfg.razorpayKey, response.amount, response.currency,
      ShopName, ShopDescription, ShopImage,
      response.id,
      Prefill(form.name, form.email, form.contact_no),
      ThemeColor)
  }

  /**
   * The status a verification answer decides: success exactly when the
   * message is the confirmation text, error for any other or missing message.
   */
  function Verdict(message: Option<string>): (s: Status)
    ensures s != Pending
    ensures s == Success <==> message == Some(ConfirmationMessage)
    ensures s == Error <==> message != Some(ConfirmationMessage)
  {
    if message == Some(ConfirmationMessage) then Success else Error
  }
}
