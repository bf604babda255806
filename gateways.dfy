/**
  The delivery providers as the engine sees them.

  A gateway is configuration only (credentials and an optional sender id); what its backend
  answers to a request is not something the engine computes, so it is supplied from outside
  as a `Network`: the reply to the send request made for a given message row.
 */
module Gateways {
  import opened Wrappers

  /** A decoded provider response: its top-level string fields, and the text `json.dumps` gives for it. */
  datatype Payload = Payload(fields: map<string, string>, json: string)

  /** What a gateway call does: return a value, or raise an exception carrying a message. */
  type Reply<T> = Result<T, string>

  /** The two backends, with the configuration each is constructed with. */
  datatype Gateway =
    | Twilio(accountSid: string, authToken: string, senderId: Option<string>)
    | Plivo(authId: string, authToken: string, senderId: Option<string>)

  /** One `send_sms(recipient, message)` call on a configured gateway. */
  datatype Request = Request(gateway: Gateway, recipient: string, text: string)

  /** The backends' answers: the reply to the send made for message row `id` with request `req`. */
  type Network = (nat, Request) -> Reply<Payload>

  /** Field `key` is present and truthy in the payload. */
  predicate HasTruthy(p: Payload, key: string)
  {
    key in p.fields && p.fields[key] != ""
  }

  /**
    The provider's message identifier, `result.get('sid') or result.get('message_uuid')`:
    a truthy `sid` wins; otherwise whatever `message_uuid` holds (possibly nothing or "").
   */
  function ProviderId(p: Payload): (r: Option<string>)
    ensures HasTruthy(p, "sid") ==> r == Some(p.fields["sid"])
    ensures !HasTruthy(p, "sid") && HasTruthy(p, "message_uuid") ==> r == Some(p.fields["message_uuid"])
    ensures Truthy(r) <==> HasTruthy(p, "sid") || HasTruthy(p, "message_uuid")
  {
    if HasTruthy(p, "sid") then Some(p.fields["sid"])
    else if "message_uuid" in p.fields then Some(p.fields["message_uuid"])
    else None
  }
}
