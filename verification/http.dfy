/**
 * HTTP responses and handler outcomes. A handler is a function from the
 * store and a request to the new store and the response it sends.
 */
module Http {
  import opened Common
  import opened Db
  import opened Stripe

  /** The response bodies the handlers send. */
  datatype Body =
    | Received                                           // { received: true }
    | Message(text: string)                              // plain text or { error: text }
    | WebhookError                                       // `Webhook Error: ${err.message}`
    | SessionInfo(sessionId: string, url: string)        // { sessionId, url }
    | FreePlan                                           // { success: true, plan: 'free', ... }
    | PlanSession(sessionId: string, url: string, plan: string)
    | CorsOk                                             // 'ok' with CORS headers
    | Failure                                            // { error: err.message } of an exception the model does not name

  datatype Response = Response(status: int, body: Body)

  /** The store after a request, and the response sent. */
  datatype Outcome = Outcome(store: Store, response: Response)

  /** As `Outcome`, plus the checkout session requested from the provider, if any. */
  datatype SessionOutcome = SessionOutcome(store: Store, response: Response, sent: Option<SessionParams>)

  const MethodNotAllowed: string := "Method not allowed"
  const NoSignatureHeader: string := "No signature header"
  const FieldsRequired: string := "listingId and userId are required"
  const ListingNotFound: string := "Listing not found"
  const SessionFailed: string := "Failed to create payment session"
}
