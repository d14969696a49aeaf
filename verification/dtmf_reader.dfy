/**
  The RTP DTMF reader: a read-through adapter over an RTP media stream that
  watches for telephone-event packets and turns each key press, however many
  times its packets are repeated, into one detected symbol held in a one-slot
  latch.
 */
module DtmfReader {

  import opened Wrappers
  import opened TelephoneEvent

  type uint32 = x: int | 0 <= x < 0x1_0000_0000

  /** The event code the reader starts from: no press has been seen yet. */
  const NoEvent: uint8 := 255

  /** The negotiated codec; only its payload type matters to the reader. */
  datatype Codec = Codec(payloadType: uint8)

  /** The header of the packet the inner reader delivered last. */
  datatype PacketHeader = PacketHeader(payloadType: uint8, timestamp: uint32)

  /** An error of the inner reader, passed through untouched. */
  datatype IOError = EOF | Failed(reason: string)

  /** The detector's fields as one value: the current press and the latch. */
  datatype Detector = Detector(
    lastEvent: uint8,
    lastTimestamp: uint32,
    endProcessed: bool,
    dtmf: char,
    dtmfSet: bool)

  /** A fresh reader: no press yet, nothing reported, the latch empty. */
  const Initial := Detector(NoEvent, 0, false, Unmapped, false)

  /** A packet opens a new press when its event code or its RTP timestamp differs from the current press. */
  predicate IsNewPress(d: Detector, event: uint8, timestamp: uint32): (isNew: bool)
    ensures d.lastEvent == NoEvent && event < |Keypad| ==> isNew
    ensures !isNew ==> ToRune(event) == ToRune(d.lastEvent)
  {
    event != d.lastEvent || timestamp != d.lastTimestamp
  }

  /** A packet yields a symbol when it ends a press whose end has not been reported yet. */
  predicate Emits(d: Detector, ev: Event, timestamp: uint32) {
    ev.endOfEvent && (IsNewPress(d, ev.event, timestamp) || !d.endProcessed)
  }

  /**
    Once the end of the current press has been reported, the latch holds that
    press's symbol (read or not).
   */
  predicate Consistent(d: Detector) {
    d.endProcessed ==> d.dtmf == ToRune(d.lastEvent)
  }

  /** The effect of one telephone-event packet on the detector. */
  function Process(d: Detector, ev: Event, timestamp: uint32): (r: Detector)
    ensures r.lastEvent == ev.event && r.lastTimestamp == timestamp
    ensures r.endProcessed <==> ev.endOfEvent || (!IsNewPress(d, ev.event, timestamp) && d.endProcessed)
    ensures Emits(d, ev, timestamp) ==> r.dtmfSet && r.dtmf == ToRune(ev.event)
    ensures !Emits(d, ev, timestamp) ==> r.dtmfSet == d.dtmfSet && r.dtmf == d.dtmf
  {
    if IsNewPress(d, ev.event, timestamp) then
      var primed := d.(lastEvent := ev.event, lastTimestamp := timestamp, endProcessed := false);
      if ev.endOfEvent then primed.(dtmf := ToRune(ev.event), dtmfSet := true, endProcessed := true)
      else primed
    else if ev.endOfEvent && !d.endProcessed then
      d.(dtmf := ToRune(ev.event), dtmfSet := true, endProcessed := true)
    else
      // a repeated end packet, or a continuation of the current press
      d
  }

  /** The detector after its latch has been read: the symbol stays, the flag is cleared. */
  function AfterRead(d: Detector): (r: Detector)
    ensures !r.dtmfSet && r.dtmf == d.dtmf
    ensures r.(dtmfSet := d.dtmfSet) == d
    ensures Consistent(d) ==> Consistent(r)
  {
    d.(dtmfSet := false)
  }

  /** The event the reader feeds to the detector: the decoded one, or the zero event when decoding fails. */
  function EventOf(b: seq<uint8>): (ev: Event)
    ensures |b| < PayloadSize ==> ev == ZeroEvent
    ensures |b| >= PayloadSize ==> Decode(b) == Ok(ev)
  {
    match Decode(b)
    case Ok(e) => e
    case Err(_) => ZeroEvent
  }

  class RTPDtmfReader {
    const codec: Codec

    var lastEvent: uint8
    var lastTimestamp: uint32
    var endProcessed: bool
    var dtmf: char
    var dtmfSet: bool

    function State(): Detector
      reads this
    {
      Detector(lastEvent, lastTimestamp, endProcessed, dtmf, dtmfSet)
    }

    ghost predicate Valid()
      reads this
    {
      Consistent(State())
    }

    /** Any minimum durations given are accepted and ignored. */
    constructor (codec: Codec, minDuration: seq<uint16>)
      ensures Valid() && State() == Initial && this.codec == codec
    {
      this.codec := codec;
      lastEvent := NoEvent;
      lastTimestamp := 0;
      endProcessed := false;
      dtmf := Unmapped;
      dtmfSet := false;
    }

    /** Feeds one telephone-event packet whose RTP timestamp is `timestamp`. */
    method ProcessDTMFEvent(ev: Event, timestamp: uint32)
      requires Valid()
      modifies this
      ensures Valid() && State() == Process(old(State()), ev, timestamp)
    {
      var isNewEvent := lastEvent != ev.event || lastTimestamp != timestamp;
      if isNewEvent {
        lastEvent := ev.event;
        lastTimestamp := timestamp;
        endProcessed := false;
        if ev.endOfEvent {
          dtmf := ToRune(ev.event);
          dtmfSet := true;
          endProcessed := true;
        }
      } else if ev.endOfEvent && !endProcessed {
        dtmf := ToRune(ev.event);
        dtmfSet := true;
        endProcessed := true;
      } else if ev.endOfEvent && endProcessed {
        // a repeated end packet is ignored
      }
    }

    /** Returns the latched symbol and whether it was unread, and marks it read. */
    method ReadDTMF() returns (r: char, isSet: bool)
      requires Valid()
      modifies this
      ensures r == old(dtmf) && isSet == old(dtmfSet)
      ensures old(endProcessed) ==> r == ToRune(old(lastEvent))
      ensures Valid() && State() == AfterRead(old(State()))
      ensures !dtmfSet
    {
      r, isSet := dtmf, dtmfSet;
      dtmfSet := false;
    }

    /**
      Passes one read of the inner reader through. The inner reader returned
      `n` and `err` and left `b` in the caller's buffer; `header` is the header
      of the packet it delivered.
     */
    method Read(b: seq<uint8>, n: nat, err: Option<IOError>, header: PacketHeader)
      returns (count: nat, readErr: Option<IOError>)
      requires Valid()
      modifies this
      ensures count == n && readErr == err
      ensures Valid()
      ensures err.Some? || header.payloadType != codec.payloadType ==> State() == old(State())
      ensures err.None? && header.payloadType == codec.payloadType ==>
                State() == Process(old(State()), EventOf(b), header.timestamp)
      ensures err.Some? || |b| >= PayloadSize ==> State() == ReadSkippingMalformed(old(State()), codec, b, err, header)
    {
      if err.Some? {
        return n, err;
      }
      if header.payloadType != codec.payloadType {
        return n, None;
      }
      var ev := ZeroEvent;
      var decoded := Decode(b);
      if decoded.Ok? {
        ev := decoded.value;
      }
      ProcessDTMFEvent(ev, header.timestamp);
      return n, None;
    }
  }

  /** Process keeps the latch consistent with the reported press. */
  lemma ProcessKeepsConsistent(d: Detector, ev: Event, timestamp: uint32)
    requires Consistent(d)
    ensures Consistent(Process(d, ev, timestamp)) && Consistent(AfterRead(d))
  {
  }

  /** A new press takes over the packet's event code and timestamp and forgets whether an end was reported. */
  lemma NewPressPrimes(d: Detector, ev: Event, timestamp: uint32)
    requires IsNewPress(d, ev.event, timestamp) && !ev.endOfEvent
    ensures Process(d, ev, timestamp) == d.(lastEvent := ev.event, lastTimestamp := timestamp, endProcessed := false)
  {
  }

  /** A new press whose first packet is already an end packet is reported at once. */
  lemma ImmediateEnd(d: Detector, ev: Event, timestamp: uint32)
    requires IsNewPress(d, ev.event, timestamp) && ev.endOfEvent
    ensures Process(d, ev, timestamp) == Detector(ev.event, timestamp, true, ToRune(ev.event), true)
  {
  }

  /** The first end packet of the current press is reported. */
  lemma FirstEndReported(d: Detector, ev: Event, timestamp: uint32)
    requires !IsNewPress(d, ev.event, timestamp) && ev.endOfEvent && !d.endProcessed
    ensures Process(d, ev, timestamp) == d.(dtmf := ToRune(ev.event), dtmfSet := true, endProcessed := true)
  {
  }

  /** Repeated end packets and continuation packets of the current press change nothing. */
  lemma SamePressAbsorbed(d: Detector, ev: Event, timestamp: uint32)
    requires !IsNewPress(d, ev.event, timestamp)
    requires !ev.endOfEvent || d.endProcessed
    ensures Process(d, ev, timestamp) == d
  {
  }

  /** A packet that cannot be decoded never yields a symbol, though it may open a press of event 0. */
  lemma MalformedNeverEmits(d: Detector, b: seq<uint8>, timestamp: uint32)
    requires |b| < PayloadSize
    ensures !Emits(d, EventOf(b), timestamp)
    ensures Process(d, EventOf(b), timestamp).lastEvent == 0
  {
  }

  /** A symbol not read before the next press is reported is lost: the latch keeps only the newest. */
  lemma UnreadSymbolOverwritten(d: Detector, first: Event, t1: uint32, second: Event, t2: uint32)
    requires Emits(d, first, t1)
    requires IsNewPress(Process(d, first, t1), second.event, t2) && second.endOfEvent
    ensures Process(Process(d, first, t1), second, t2).dtmf == ToRune(second.event)
    ensures Process(Process(d, first, t1), second, t2).dtmfSet
  {
  }

  /**
    A packet too short to decode, arriving between the first end packet of a
    press and its retransmissions, reopens the press as event 0: the next
    retransmitted end packet is then reported a second time.
   */
  lemma MalformedReopensPress(d: Detector, bad: seq<uint8>, good: seq<uint8>, timestamp: uint32)
    requires d.endProcessed && |bad| < PayloadSize && |good| >= PayloadSize
    requires EventOf(good).endOfEvent && EventOf(good).event != 0
    requires !IsNewPress(d, EventOf(good).event, timestamp)
    ensures !Emits(d, EventOf(good), timestamp)
    ensures Emits(Process(d, EventOf(bad), timestamp), EventOf(good), timestamp)
  {
  }

  /**
    The detector step of a read that skips packets it cannot decode, instead
    of feeding the zero event: the behaviour evidently intended by the error
    branch of the reader's decode step.
   */
  function ReadSkippingMalformed(d: Detector, codec: Codec, b: seq<uint8>, err: Option<IOError>, header: PacketHeader): (r: Detector)
    ensures err.Some? || header.payloadType != codec.payloadType || |b| < PayloadSize ==> r == d
    ensures err.None? && header.payloadType == codec.payloadType && |b| >= PayloadSize ==>
              r == Process(d, EventOf(b), header.timestamp)
  {
    if err.Some? || header.payloadType != codec.payloadType then d
    else
      match Decode(b)
      case Ok(ev) => Process(d, ev, header.timestamp)
      case Err(_) => d
  }

  /** When malformed packets are skipped, retransmitted end packets stay absorbed even with a malformed packet between them. */
  lemma SkippingMalformedReportsOnce(d: Detector, codec: Codec, bad: seq<uint8>, good: seq<uint8>, header: PacketHeader)
    requires d.endProcessed && |bad| < PayloadSize && |good| >= PayloadSize
    requires header.payloadType == codec.payloadType
    requires !IsNewPress(d, EventOf(good).event, header.timestamp)
    ensures ReadSkippingMalformed(ReadSkippingMalformed(d, codec, bad, None, header), codec, good, None, header) == d
  {
  }

  /** Reading the latch twice in a row: the second read finds nothing. */
  lemma SecondReadFindsNothing(d: Detector)
    ensures !AfterRead(AfterRead(d)).dtmfSet && AfterRead(AfterRead(d)).dtmf == d.dtmf
  {
  }
}
