/** Optional values, used for errors that may or may not be present. */
module Wrappers {

  datatype Option<+T> = None | Some(value: T)
}

/**
  The RTP "telephone-event" payload of RFC 4733 (which obsoletes RFC 2833).

  The detector calls a decoder and a digit-to-symbol mapping whose bodies are
  not part of this model; this module states them as the standard defines them:
  the payload layout of section 2.3 of RFC 4733 and the DTMF event codes of
  section 3.2 of RFC 4733.
 */
module TelephoneEvent {

  import opened Wrappers

  type uint8 = x: int | 0 <= x < 0x100
  type uint16 = x: int | 0 <= x < 0x1_0000

  /** A decoded telephone event: the event code, the E (end) bit, the volume and the duration. */
  datatype Event = Event(event: uint8, endOfEvent: bool, volume: uint8, duration: uint16)

  /** The zero value of an event, which is what the reader feeds on when decoding fails. */
  const ZeroEvent := Event(0, false, 0, 0)

  /** Size of the fixed part of a payload (RFC 4733, section 2.3). */
  const PayloadSize := 4

  /** Largest volume: six bits (RFC 4733, section 2.3). */
  const MaxVolume := 63

  datatype DecodeError = PayloadTooShort

  datatype DecodeResult = Ok(value: Event) | Err(error: DecodeError)

  /** The E bit is the top bit of the second byte. */
  predicate EndBit(b: uint8) { b >= 0x80 }

  /** The R bit follows the E bit; a sender sets it to zero and a receiver ignores it. */
  predicate ReservedClear(b: uint8) { b % 0x80 < 0x40 }

  /**
    Decodes a payload: byte 0 is the event code, byte 1 carries the E bit, the
    R bit and the volume, bytes 2 and 3 the big-endian duration.
    Anything shorter than four bytes is rejected.
   */
  function Decode(p: seq<uint8>): (r: DecodeResult)
    ensures r.Err? <==> |p| < PayloadSize
    ensures r.Ok? ==> r.value.event == p[0] && (r.value.endOfEvent <==> EndBit(p[1]))
    ensures r.Ok? ==> r.value.volume <= MaxVolume
  {
    if |p| < PayloadSize then Err(PayloadTooShort)
    else Ok(Event(p[0], EndBit(p[1]), p[1] % 0x40, (p[2] as int) * 0x100 + p[3] as int))
  }

  /** An event that fits the wire format: its volume has six bits. */
  predicate WellFormed(e: Event) { e.volume <= MaxVolume }

  /** Encodes an event as a sender does, with the R bit clear. */
  function Encode(e: Event): (p: seq<uint8>)
    requires WellFormed(e)
    ensures |p| == PayloadSize && p[0] == e.event
    ensures ReservedClear(p[1]) && (EndBit(p[1]) <==> e.endOfEvent)
  {
    [e.event, (if e.endOfEvent then 0x80 else 0) + e.volume, e.duration / 0x100, e.duration % 0x100]
  }

  /** Decoding an encoded event gives the event back, whatever bytes follow it. */
  lemma DecodeEncode(e: Event, rest: seq<uint8>)
    requires WellFormed(e)
    ensures Decode(Encode(e) + rest) == Ok(e)
  {
  }

  /** A payload whose R bit is clear is the encoding of what it decodes to. */
  lemma EncodeDecode(p: seq<uint8>)
    requires |p| >= PayloadSize && ReservedClear(p[1])
    ensures Decode(p).Ok? && WellFormed(Decode(p).value)
    ensures Encode(Decode(p).value) == p[..PayloadSize]
  {
  }

  /** The sixteen DTMF symbols in event-code order (RFC 4733, section 3.2). */
  const Keypad: string := "0123456789*#ABCD"

  /** The symbol of an event code that names no DTMF key. */
  const Unmapped: char := '\0'

  /** Maps an event code to its keypad symbol. */
  function ToRune(code: uint8): (r: char)
    ensures code < |Keypad| <==> r != Unmapped
  {
    if code < |Keypad| then Keypad[code] else Unmapped
  }

  /** The reverse table, as a sender uses it: the event code of a keypad symbol. */
  function FromRune(c: char): (r: Option<uint8>)
    ensures r.Some? ==> r.value < |Keypad|
  {
    if '0' <= c <= '9' then Some(c as int - '0' as int)
    else if c == '*' then Some(10)
    else if c == '#' then Some(11)
    else if 'A' <= c <= 'D' then Some(c as int - 'A' as int + 12)
    else None
  }

  /** The two tables are inverse to each other on the sixteen DTMF codes. */
  lemma ToRuneFromRune(code: uint8, c: char)
    ensures code < |Keypad| ==> FromRune(ToRune(code)) == Some(code)
    ensures FromRune(c) == Some(code) ==> ToRune(code) == c
  {
  }
}
