/**
 * The Cordova host's callback channel, seen from the result encoder: every
 * `sendPluginResult` is one delivery of a status and a snapshot of the record
 * (a `PluginResult` encodes the JSON object when it is built).
 */
module Cordova {
  import opened Json

  /** `PluginResult.Status`, restricted to the two values the encoder sends. */
  datatype Status = Ok | Error

  datatype Delivery = Delivery(status: Status, payload: Record)

  /** `CallbackContext`: only the log of what was delivered through it. */
  class CallbackContext {
    ghost var deliveries: seq<Delivery>

    constructor ()
      ensures deliveries == []
    {
      deliveries := [];
    }

    /** `sendPluginResult(new PluginResult(status, message))`. */
    method SendPluginResult(status: Status, message: JsonObject)
      modifies this
      ensures deliveries == old(deliveries) + [Delivery(status, message.fields)]
    {
      deliveries := deliveries + [Delivery(status, message.fields)];
    }
  }
}
