/** Identifiers and the optional value shared by both pairing engines. */
module Common {

  /** A Telegram user id. Telegram ids are positive, so the source's
      truthiness tests on a looked-up id (`if partner_id:`) are exactly
      presence tests. */
  type UserId = x: int | x > 0 witness 1

  /** Python's `None` or a value. */
  datatype Option<+T> = None | Some(value: T)
}
