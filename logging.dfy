/** The structured logger handed to every constructor. Only whether one was
    supplied matters to the model: `None` stands for a nil `*zap.Logger`. */
module Logging {

  datatype Logger =
    | Nop   // zap.NewNop(): discards everything
    | Sink  // a configured logger supplied by the caller

  import opened Wrappers

  /** The logger a component keeps when it replaces nil by a no-op sink. */
  function OrNop(logger: Option<Logger>): (l: Logger)
    ensures logger.Some? ==> l == logger.value
    ensures logger.None? ==> l == Nop
  {
    if logger.Some? then logger.value else Nop
  }
}
