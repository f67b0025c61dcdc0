/** Small result types shared by the codecs and the driver. */
module Results {

  /** A value that may be absent (JavaScript's `undefined`). */
  datatype Option<+T> = None | Some(value: T)

  /** The JavaScript errors the driver can run into. */
  datatype Fault =
    | TypeError   // a property read or a call on `undefined`
    | RangeError  // `readUInt8(0)` on an empty buffer

  /** How a handler ended: normally, or by throwing. */
  datatype Outcome = Completed | Threw(fault: Fault)
}
