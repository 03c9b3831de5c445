# Ticket checkout state machine

This project models the checkout of the RCS CTF 2024 ticket page: the `Ticket` component in
`components/Ticket.tsx`. The component holds one mutable status (`pending`, `success`,
`error`). Its submit handler does four things in order:

- It rewrites blank university fields of the form to `"N/A"`.
- It posts an order.
- It opens a payment session for the order it gets back.
- It registers two callbacks on that session: a completion handler and a `payment.failed` handler.

The completion handler makes one verification call. It sets `success` only when the answer's
`message` is exactly `"Email sent successfully"`, and `error` otherwise. The failure handler
sets `error` straight away.

Modules:

- `Wrappers` (`wrappers.dfy`): `Option`.
- `CheckoutStatus` (`status.dfy`): the component's `Status`: `Pending`, `Success` or `Error`.
- `Registration` (`registration.dfy`): the form record and its normalisation. It holds the
  value `RegistrationData`, the pure `Normalized`, and the class `FormData` that the handler
  mutates in place.
- `Payment` (`payment.dfy`): the order request and response, the payment-session options, the
  verification URL, and the `Verdict` on a verification message.
- `CheckoutSpec` (`checkout_spec.dfy`): the checkout as a pure state machine. `Step` handles one
  event, `Run` folds a run of events, `Requests`/`Log` give the remote calls issued, and
  `Enabled`/`Valid` say which events can happen. Lemmas state what every run keeps.
- `Ticket` (`ticket.dfy`): the class `Checkout`. It has the real `status` field and a ghost
  record of the opened sessions. Its methods `Submit`, `OnCompleted` and `OnPaymentFailed` are
  proved to move `State()` exactly as `CheckoutSpec.Step` does.

Remote calls and the payment widget are parameters:

- The order call either throws (`OrderFailed`) or answers with `{id, amount, currency}`.
- The verification call either throws (`Unreachable`) or answers with an optional `message`.
- The widget's callbacks are method calls on the `Checkout` object, allowed only for a session
  that was opened.
- The environment variables (API base URL, payment key) and the `ticketType` property form
  `Config`.

Two behaviours of the code worth noting:

- A verification call that throws is not turned into `error`. The `await` of the GET request
  in the completion handler (components/Ticket.tsx:61-65) sits outside any `try`, so
  `setStatus` is never reached and the status stays as it was. Axios also throws on a non-2xx
  answer, so a server error leaves the status untouched as well.
- `success` and `error` are not terminal for callbacks. Both handlers call `setStatus`
  unconditionally, so a `payment.failed` followed by a confirmed completion of the same session
  ends in `success` (`CheckoutSpec.ErrorCanTurnIntoSuccess`). What does hold:
  - The status never returns to `pending` (`NeverReturnsToPending`).
  - In the model, where each event is one atomic step, no new submission and no new session
    can happen once the status has left `pending`, because the form is rendered only while
    pending (`DecidedOpensNoSession`).

## Model

| member | source | states |
|---|---|---|
| `Registration.Normalized` | components/Ticket.tsx:36-37 | A present-but-empty `uni_id`/`uni_name` becomes `"N/A"`. An absent or non-empty one is kept. `name`, `email`, `contact_no` and `where_you_reside` are unchanged. The result has no blank optional field. |
| `Registration.NormalizedFixesExactlyNormalRecords` | components/Ticket.tsx:36-37 | Normalisation leaves a record unchanged exactly when it has no blank optional field, and normalising twice is the same as normalising once. |
| `Payment.CheckPayUrl` | components/Ticket.tsx:61-65 | The verification URL lies under the API base and continues with the `/check-pay/` segment. The order id read back from it is exactly the order id it was built from. |
| `Payment.OptionsFor` | components/Ticket.tsx:48-88 | The session options carry the order response's `id` (as `order_id`), `amount` and `currency` unchanged. Their prefill `name`/`email`/`contact` are the form's `name`/`email`/`contact_no`, and their key is the configured key. |
| `Payment.Verdict` | components/Ticket.tsx:66-78 | A verification answer gives `success` iff its message is exactly `"Email sent successfully"`, and `error` iff it is any other or missing message. It never gives `pending`. |
| `CheckoutSpec.SubmissionPostsNormalizedForm` | components/Ticket.tsx:35-46 | A submission does not change the status. It posts exactly `{ticket_type: ticketType, ticket_data: normalised form}` to `/order`, and that payload has no blank optional field. |
| `CheckoutSpec.NeverReturnsToPending` | components/Ticket.tsx:56-109 | Once the status is `success` or `error`, no run of events brings it back to `pending`. |
| `CheckoutSpec.SessionsAreCreatedOrders` | components/Ticket.tsx:39-111 | The sessions after a run are the earlier ones followed by one per submission whose order was created. Each is built from that order's response and the normalised form. |
| `CheckoutSpec.DecidedOpensNoSession` | components/Ticket.tsx:136-138 | In a valid run that starts after a decision, no session is opened, because the form exists only while pending. |
| `CheckoutSpec.FailedOrdersChangeNothing` | components/Ticket.tsx:39-46 | If no session is open and every order call in a valid run throws, the run leaves the state unchanged. It opens nothing and makes no verification call. |
| `CheckoutSpec.UnassignedStatusUnchanged` | components/Ticket.tsx:35-119 | A run made only of submissions and of completions whose verification call threw leaves the status as it was. |
| `CheckoutSpec.SuccessRequiresConfirmation` | components/Ticket.tsx:56-79 | A run that ends in `success` (from a state that was not) contains a completion whose verification answered `"Email sent successfully"`. No later event assigned the status. |
| `CheckoutSpec.OneVerificationPerCompletion` | components/Ticket.tsx:56-109 | The verification calls of any run are, in order, exactly one per completion, for that session's own `order_id`. Submissions and payment failures issue none, and nothing is retried. |
| `CheckoutSpec.CompletionsConcernOpenedSessions` | components/Ticket.tsx:48-90 | In a valid run every completion concerns a session that was held at the start or was opened by an earlier submission, for an order the service had answered. Starting from the initial state, every verification call is therefore for an order id the order service returned earlier. |
| `CheckoutSpec.ErrorCanTurnIntoSuccess` | components/Ticket.tsx:56-109 | Take a valid run: created order, then `payment.failed`, then a confirmed completion of the same session. It is in `error` after the failure and in `success` at the end. |
| `CheckoutSpec.BlankUniversityCheckout` | components/Ticket.tsx:35-79 | A form with blank university fields is posted with `"N/A"` in both. With order `order_1` and a completion, the run issues exactly that POST and one GET for `order_1`. It ends in `success` on the confirmation text and in `error` on `"pending"`. |
| `Ticket.Checkout.constructor` | components/Ticket.tsx:24 | The component starts `pending` with no session. |
| `Ticket.Checkout.Submit` | components/Ticket.tsx:35-119 | Callable only while `pending`. It mutates the form in place to its normalised value and posts exactly the normalised form for the ticket type. The status is not assigned. A thrown order call opens nothing. A created order opens one session with that order's options. The new state is `Step` of the old one. |
| `Ticket.Checkout.OnCompleted` | components/Ticket.tsx:56-79 | It issues one GET for the session's own order id. A thrown verification leaves the status as it was. Otherwise the status becomes `success` iff the message is exactly the confirmation text, and `error` otherwise. The new state is `Step` of the old one. |
| `Ticket.Checkout.OnPaymentFailed` | components/Ticket.tsx:100-109 | The status becomes `error` and no request is issued. The new state is `Step` of the old one. |

## Left out

- Rendering: the dialog, the transitions, the form markup and styling, and the success/error panels. The panels only navigate away and never assign the status.
- The constant `open` and the no-op `setOpen`.
- The form library's `reset()` and the schema resolver. The validator file is not part of this model.
- Toast notifications, `console.log` and `router.push`/`router.replace`. These are UI side effects.
- The payment-provider SDK calls `new Razorpay`, `rzp1.on` and `rzp1.open` are assumed not to throw. In the code such a throw would be caught like an order failure, after the POST had been made.
- The order id carried in a `payment.failed` event. It only feeds a notification text.
- Values of the order response other than strings and integers. JavaScript's `number` `amount` is modelled as an integer. A response lacking a field is not modelled.
- Unset environment variables. The API base and the payment key are plain strings in `Config`.
- CheckoutSpec.DecidedOpensNoSession: holds only for atomic events. In the code, a submission can still be waiting for its POST answer when an earlier session's handler sets `success` or `error`. The session for that order is then opened after the decision.
- Interleaving: a callback of an earlier session could fire while a later submission is waiting for its order. Each event is modelled as one atomic step. Timing, timeouts, and the user leaving mid-payment are also left out.
- The ticket-type allow-list and redirect in `app/[ticketType]/page.tsx`, and the static layout in `app/layout.tsx`. Neither is part of this model.
- Idempotence of the verification endpoint. The backend is outside the model, and each verification answer is an input.
