/** The rows of the parsed stream and the one-minute windows they fall in. */
module Clicks {

  const WINDOW_SECONDS := 60
  const WATERMARK_SECONDS := 120

  // A parsed event: the ten columns of PARSED_SCHEMA with ts read as seconds since the epoch.
  datatype Event = Event(
    eventId: string,
    eventType: string,
    userId: string,
    sessionId: string,
    ts: int,
    page: string,
    device: string,
    region: string,
    campaignId: string,
    referrer: string)

  // Tumbling windows are aligned to the epoch; Euclidean % keeps this right before 1970 too.
  function WindowStart(ts: int): int { ts - ts % WINDOW_SECONDS }

  function WindowEnd(ts: int): int { WindowStart(ts) + WINDOW_SECONDS }

  lemma WindowHoldsItsEvent(ts: int)
    ensures WindowStart(ts) % 60 == 0 && WindowEnd(ts) == WindowStart(ts) + 60 && WindowStart(ts) <= ts < WindowEnd(ts)
    ensures forall start: int :: start % 60 == 0 && start <= ts < start + 60 ==> start == WindowStart(ts)
  {
  }
}
