/** The two log-stream backends and the handlers `RestartApp` attaches to
    them. Each backend delivers events on its own thread; here an event is a
    value and a handler is a pure function from an event to the line it
    asks the logger to write. */
module LogStream {
  import opened Timestamps

  /** Doppler is the newer streaming endpoint, Loggregator the older one. */
  datatype Backend = Doppler | Loggregator

  /** A Doppler log envelope: nanosecond timestamp, the source type as its
      `ToString()` renders it, and the message as UTF-8 bytes. */
  datatype DopplerEnvelope = DopplerEnvelope(timestamp: int64, sourceType: string, message: seq<bv8>)

  /** A Loggregator log message: nanosecond timestamp, source name and the
      message already decoded to text. */
  datatype LoggregatorEnvelope = LoggregatorEnvelope(timestamp: int64, sourceName: string, message: string)

  /** The one shape both handlers print: `[source] - time: message`, with the
      time as whole milliseconds since the epoch. */
  datatype LogRecord = LogRecord(sourceType: string, millis: int64, message: string)

  /** The events a stream client raises, for envelopes of type `E`. */
  datatype StreamEvent<E> =
    | StreamOpened
    | StreamClosed
    | ErrorReceived(cause: string)
    | MessageReceived(envelope: E)

  /** What a handler hands to the logger. */
  datatype Line =
    | OpenedLine        // "Log stream opened."
    | ClosedLine        // "Log stream closed."
    | ExceptionLine(cause: string)
    | RecordLine(record: LogRecord)

  /** The Doppler record handler; `utf8` stands for `Encoding.UTF8.GetString`. */
  function FromDoppler(e: DopplerEnvelope, utf8: seq<bv8> -> string): (r: LogRecord)
    ensures TruncatedMillis(e.timestamp as int, r.millis as int)
    ensures r.sourceType == e.sourceType && r.message == utf8(e.message)
  {
    LogRecord(e.sourceType, NanosToMillis(e.timestamp), utf8(e.message))
  }

  /** The Loggregator record handler. */
  function FromLoggregator(e: LoggregatorEnvelope): (r: LogRecord)
    ensures TruncatedMillis(e.timestamp as int, r.millis as int)
    ensures r.sourceType == e.sourceName && r.message == e.message
  {
    LogRecord(e.sourceName, NanosToMillis(e.timestamp), e.message)
  }

  /** The four handlers attached to a Doppler client. Only a received
      message becomes a record line: its source type, its decoded text and
      its timestamp truncated to whole milliseconds. */
  function HandleDoppler(ev: StreamEvent<DopplerEnvelope>, utf8: seq<bv8> -> string): (r: Line)
    ensures r == OpenedLine <==> ev.StreamOpened?
    ensures r == ClosedLine <==> ev.StreamClosed?
    ensures r.ExceptionLine? <==> ev.ErrorReceived?
    ensures ev.ErrorReceived? ==> r.cause == ev.cause
    ensures r.RecordLine? <==> ev.MessageReceived?
    ensures ev.MessageReceived? ==>
              && r.record.sourceType == ev.envelope.sourceType
              && r.record.message == utf8(ev.envelope.message)
              && TruncatedMillis(ev.envelope.timestamp as int, r.record.millis as int)
  {
    match ev
    case StreamOpened => OpenedLine
    case StreamClosed => ClosedLine
    case ErrorReceived(c) => ExceptionLine(c)
    case MessageReceived(e) => RecordLine(FromDoppler(e, utf8))
  }

  /** The four handlers attached to a Loggregator client. Only a received
      message becomes a record line: its source name, its text and its
      timestamp truncated to whole milliseconds. */
  function HandleLoggregator(ev: StreamEvent<LoggregatorEnvelope>): (r: Line)
    ensures r == OpenedLine <==> ev.StreamOpened?
    ensures r == ClosedLine <==> ev.StreamClosed?
    ensures r.ExceptionLine? <==> ev.ErrorReceived?
    ensures ev.ErrorReceived? ==> r.cause == ev.cause
    ensures r.RecordLine? <==> ev.MessageReceived?
    ensures ev.MessageReceived? ==>
              && r.record.sourceType == ev.envelope.sourceName
              && r.record.message == ev.envelope.message
              && TruncatedMillis(ev.envelope.timestamp as int, r.record.millis as int)
  {
    match ev
    case StreamOpened => OpenedLine
    case StreamClosed => ClosedLine
    case ErrorReceived(c) => ExceptionLine(c)
    case MessageReceived(e) => RecordLine(FromLoggregator(e))
  }

  /** The Doppler envelope carrying the same record as a Loggregator one. */
  function AsDoppler(e: LoggregatorEnvelope, encode: string -> seq<bv8>): DopplerEnvelope {
    DopplerEnvelope(e.timestamp, e.sourceName, encode(e.message))
  }

  function AsDopplerEvent(ev: StreamEvent<LoggregatorEnvelope>, encode: string -> seq<bv8>): StreamEvent<DopplerEnvelope> {
    match ev
    case StreamOpened => StreamOpened
    case StreamClosed => StreamClosed
    case ErrorReceived(c) => ErrorReceived(c)
    case MessageReceived(e) => MessageReceived(AsDoppler(e, encode))
  }

  /** The two backends are interchangeable: an event that carries the same
      timestamp, source and text (the bytes decoding back to the text) is
      printed as the same line by either handler, and a record line's time
      is the truncated millisecond count of the envelope's timestamp. */
  lemma HandlersAgree(ev: StreamEvent<LoggregatorEnvelope>, encode: string -> seq<bv8>, utf8: seq<bv8> -> string)
    requires forall t :: utf8(encode(t)) == t
    ensures HandleDoppler(AsDopplerEvent(ev, encode), utf8) == HandleLoggregator(ev)
    ensures ev.MessageReceived? ==>
              && HandleLoggregator(ev).RecordLine?
              && TruncatedMillis(ev.envelope.timestamp as int, HandleLoggregator(ev).record.millis as int)
  {
    if ev.MessageReceived? {
      assert utf8(encode(ev.envelope.message)) == ev.envelope.message;
    }
  }
}
