/** Small value types shared by the server, the store slice and the notifications screen. */
module Shared {

  /** A value that may be absent (JavaScript `undefined`/`null`, or a falsy request field). */
  datatype Option<+T> = None | Some(value: T)

  /** The two kinds of notification, the `type` enum `'match' | 'info'`. */
  datatype Kind = Match | Info
}
