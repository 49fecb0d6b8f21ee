/**
  What the views observe of the payment provider. The HTTP client returns the
  decoded JSON body, or `None` when the request failed; only the fields the
  views read are kept.
 */
module Gateway {
  import opened Wrappers

  /**
    Reply to "initialize transaction": top-level `status` (`None` when absent
    or null) and `data.checkout_url`. The outer `None` of `checkoutUrl` means
    the lookup raises (no `data`, a null `data`, or no `checkout_url` key);
    `Some(None)` is a `checkout_url` that is present and null.
   */
  datatype InitResponse = InitResponse(status: Option<string>, checkoutUrl: Option<Option<string>>)

  /** The `data` object of a verify reply: the payment's own `status` (`None` when absent or null). */
  datatype PaymentData = PaymentData(status: Option<string>)

  /**
    Reply to "verify transaction": top-level `status` (`None` when absent or
    null) and the `data` object (`None` when absent or null).
   */
  datatype VerifyResponse = VerifyResponse(status: Option<string>, data: Option<PaymentData>)

  /** A reply was received and its top-level status is "success". */
  predicate InitAccepted(g: Option<InitResponse>)
  {
    g.Some? && g.value.status == Some("success")
  }

  /** A verify reply was received and its top-level status is "success". */
  predicate VerifyReached(g: Option<VerifyResponse>)
  {
    g.Some? && g.value.status == Some("success")
  }

  /** The provider reports the payment itself as "successful". */
  predicate ReportsPaid(g: Option<VerifyResponse>)
  {
    VerifyReached(g) && g.value.data.Some? && g.value.data.value.status == Some("successful")
  }
}
