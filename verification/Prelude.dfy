/** Vocabulary shared by every module of the model. */
module Prelude {

  datatype Option<+T> = None | Some(value: T)

  /** US dollars. Rounding is not modelled, and no amount the daemon meters is negative. */
  type Money = d: real | d >= 0.0 witness 0.0

  /** Instants and durations are nanoseconds on one clock. */
  type Instant = int

  /** Text and metadata the daemon stores and returns but never looks into. */
  type Token = nat

  const NO_TEXT: Token := 0

  const NANOS_PER_SECOND := 1_000_000_000
}
