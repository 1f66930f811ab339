/** Values as they travel inside the JSON packets the relay exchanges with its
    browser clients, and the outbound packet envelope `{ action, data }`. */
module Packets {

  datatype Option<T> = None | Some(value: T)

  /** A JavaScript value as the relay stores it in its cache and writes it into
      packets. `Undefined` is what a missing key reads as (and what
      JSON.stringify leaves out); `Null` is what a NaN serialises to; `Flags` is
      an object of boolean capabilities (a permission set), whose key order is
      not modelled. */
  datatype Json =
    | Undefined
    | Null
    | Bool(b: bool)
    | Num(n: real)
    | Str(s: string)
    | Flags(flags: map<string, bool>)
    | Obj(fields: seq<(string, Json)>)

  /** JavaScript truthiness, as used by `if (x)` and `||`. */
  predicate Truthy(j: Json) {
    match j
    case Undefined => false
    case Null => false
    case Bool(b) => b
    case Num(n) => n != 0.0
    case Str(s) => s != ""
    case Flags(_) => true
    case Obj(_) => true
  }

  /** An outbound packet: `{ action, data }`, or the `event` envelope that also
      carries an `eventId`. */
  datatype Packet =
    | Message(action: string, data: Json)
    | Event(eventId: string, data: Json)

  /** `{ action: 'alert', data: { level, message } }` */
  function Alert(level: string, message: string): Packet {
    Message("alert", Obj([("level", Str(level)), ("message", Str(message))]))
  }

  /** `{ action: 'alert', data: '<text>' }`: the raw, unlevelled alert */
  function AlertText(text: string): Packet {
    Message("alert", Str(text))
  }

  /** `{ action: 'check', data: { <key>: <value> } }` */
  function Check(key: string, value: Json): Packet {
    Message("check", Obj([(key, value)]))
  }

  /** A packet handed to one session's data channel. */
  datatype Delivery = Delivery(to: string, packet: Packet)
}
