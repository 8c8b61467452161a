/** The integration events of pkg/broker/events.go. Instants are integer nanoseconds and the
    zero instant is 0; scores are exact tenths. */
module Events {

  /** An address as net.ParseIP reads it: 16 bytes, or text it cannot read. IPv4-mapped
      addresses (section 2.5.5.2 of RFC 4291) are kept apart by their four bytes. */
  datatype Address = V4(octets: seq<bv8>) | V6(bytes: seq<bv8>) | Unreadable(text: string)

  /** A decoded JSON value, as far as the handlers look at it. */
  datatype Value = Text(s: string) | Other

  datatype TrackingEvent = TrackingEvent(
    eventId: string, userId: string, eventType: string, ip: Address, userAgent: string,
    payload: map<string, Value>, timestamp: int, consent: bool)

  datatype ScreenedEvent = ScreenedEvent(
    event: TrackingEvent, fraudulent: bool, score: nat, reason: string, screenedAt: int)

  /** A payload entry when it is a non-empty string, and otherwise the empty string. */
  function TextOf(payload: map<string, Value>, key: string): string {
    if key in payload && payload[key].Text? then payload[key].s else ""
  }
}
