/** Message shapes shared by the single-node queue and the cluster broker. */
module Messages {

  datatype Option<+T> = None | Some(value: T)

  /** The application body is opaque to the queue; text stands for any serialisable value. */
  type Body = string

  /**
   * A message together with its id (`FullMessage`). `delay` is kept exactly as the producer gave
   * it: absent, or a number of milliseconds that may be zero or negative.
   */
  datatype Msg = Msg(id: string, topic: string, body: Body, delay: Option<int>)

  /** `typeof delay === 'number' && delay > 0`: the message goes through a timer. */
  predicate IsDelayed(delay: Option<int>) {
    delay.Some? && delay.value > 0
  }
}
