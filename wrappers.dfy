/** Option and Result, plus the errors the modelled code throws. */
module Wrappers {

  /** A value that may be absent: JavaScript's `undefined`, or a nullable column's `null`. */
  datatype Option<+T> = None | Some(value: T) {
    /** JavaScript's `a ?? b`: the value when present, else the fallback. */
    function GetOr(default: T): T {
      match this
      case Some(v) => v
      case None => default
    }
  }

  /** The outcome of an operation that may throw. */
  datatype Result<+T> = Ok(value: T) | Err(error: Error)

  /** The exceptions thrown by the modelled code (and by the runtime calls it relies on). */
  datatype Error =
    | MessageNotFound          // messages.updateStatus
    | PhoneNumberNotFound      // phone_numbers.getByPhoneNumber, empty remote list
    | RequestFailed            // twilioRequest, response not ok
    | NetworkFailure           // fetch itself rejected
    | InvalidCharacter         // btoa on a character above U+00FF
    | MissingCredentials       // twilioClient construction
    | MissingFromNumber        // sendMessage / getDefaultPhoneNumber
    | DocumentNotFound         // the store's patch on an id that is not in the table
    | SchemaMismatch           // the store's insert on a record that does not fit the table
    | CallbackFailed           // the app's incomingMessageCallback rejected; its own error is rethrown

  /** The text of the `Error` the source throws for each case. */
  function ErrorText(e: Error): (text: string)
    ensures |text| > 0
  {
    match e
    case MessageNotFound => "Message not found"
    case PhoneNumberNotFound => "Phone number not found"
    case RequestFailed => "Failed to send request to Twilio"
    case NetworkFailure => "fetch failed"
    case InvalidCharacter => "Invalid character"
    case MissingCredentials =>
      "Missing Twilio credentials\n\n"
      + "npx convex env set TWILIO_ACCOUNT_SID=ACxxxxx\n"
      + "npx convex env set TWILIO_AUTH_TOKEN=xxxxx"
    case MissingFromNumber => "Missing from number"
    case DocumentNotFound => "Document not found"
    case SchemaMismatch => "Object does not match the table's schema"
    case CallbackFailed => "incomingMessageCallback rejected"
  }
}

/** Octets, as Web Crypto, TextEncoder and btoa see them. */
module Bytes {
  type byte = x: int | 0 <= x < 0x100
}
