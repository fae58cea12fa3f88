module Common {
  datatype Option<+T> = None | Some(value: T)

  /** Idempotency keys, token addresses and the like: strings of which only identity matters. */
  type Key(==, 0, !new)
}
