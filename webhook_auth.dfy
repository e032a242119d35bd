/**
  The shared-key guard in front of the render service's completion webhook. The header
  value and the configured key are inputs; a missing header or variable is `None`.
*/
module WebhookAuth {
  import opened Wrappers
  import opened Text
  import opened Http

  const MissingKey := ErrorReply(401, "Missing webhook API key", Some("X-Webhook-Key header required"))
  const NotConfigured := ErrorReply(500, "Server configuration error", None)
  const WrongKey := ErrorReply(401, "Invalid webhook API key", None)

  /**
    `requireWebhookAuth`: the header is checked before the server configuration, and the
    request passes exactly when a non-empty header equals the non-empty configured key.
  */
  function RequireWebhookAuth(header: Option<string>, expected: Option<string>): (g: Guard)
    ensures g == Next <==> Truthy(header) && Truthy(expected) && header.value == expected.value
    ensures !Truthy(header) ==> g == Respond(MissingKey)
    ensures Truthy(header) && !Truthy(expected) ==> g == Respond(NotConfigured)
    ensures Truthy(header) && Truthy(expected) && header.value != expected.value ==> g == Respond(WrongKey)
  {
    if !Truthy(header) then Respond(MissingKey)
    else if !Truthy(expected) then Respond(NotConfigured)
    else if header.value != expected.value then Respond(WrongKey)
    else Next
  }

  /** Without a configured key no request passes, whatever header it carries. */
  lemma UnconfiguredRejectsAll(header: Option<string>, expected: Option<string>)
    requires !Truthy(expected)
    ensures RequireWebhookAuth(header, expected).Respond?
    ensures RequireWebhookAuth(header, expected).reply.status in {401, 500}
  {
  }

  /** The answer to a request without the header does not reveal whether the server is configured. */
  lemma MissingHeaderHidesConfiguration(header: Option<string>, e1: Option<string>, e2: Option<string>)
    requires !Truthy(header)
    ensures RequireWebhookAuth(header, e1) == RequireWebhookAuth(header, e2)
  {
  }
}
