/**
 * The one piece of loguru's global `logger` object that logger.py relies on:
 * the ordered list of handlers it writes records to. Importing loguru leaves a
 * single handler on standard error; `remove()` with no argument drops every
 * handler and `add(sink, level=...)` appends one. Formatting, encoding, the
 * background queue of `enqueue=True` and the writes themselves are loguru's
 * own and are not modelled.
 */
module Loguru {
  import Sinks

  datatype Handler = Stderr | File(sink: Sinks.Sink)

  /** The handlers that `add` creates for a list of file sinks, in order. */
  function FileHandlers(sinks: seq<Sinks.Sink>): seq<Handler> {
    seq(|sinks|, i requires 0 <= i < |sinks| => File(sinks[i]))
  }

  class Logger {
    var handlers: seq<Handler>

    /** The state right after `from loguru import logger` (logger.py line 8). */
    constructor()
      ensures handlers == [Stderr]
    {
      handlers := [Stderr];
    }

    method Remove()
      modifies this
      ensures handlers == []
    {
      handlers := [];
    }

    method Add(sink: Sinks.Sink)
      modifies this
      ensures handlers == old(handlers) + [File(sink)]
    {
      handlers := handlers + [File(sink)];
    }
  }
}
