# RTP DTMF reader

A model of the RTP telephone-event (DTMF) detector of a Go SIP/RTP stack, the
`RTPDtmfReader` type of `media/rtp_dtmf_reader.go`. The reader wraps the
stream's inner reader: every read is passed through unchanged. When the packet
just read carries the negotiated telephone-event payload type, the reader
decodes it and feeds it to a small state machine. That machine turns the noisy,
retransmitted packets of each key press into one detected symbol, held in a
one-slot latch that `ReadDTMF` empties.

Files:

- `telephone_event.dfy`, module `TelephoneEvent`: the payload decoder and the
  event-code-to-symbol table the reader calls (`DTMFDecode`, `DTMFToRune`).
  Their bodies are not part of this model. This module states them as the
  standard defines them, not as the repository writes them:
  - the payload layout of section 2.3 of RFC 4733: event code, E bit, R bit,
    6-bit volume, big-endian 16-bit duration;
  - the DTMF event codes of section 3.2 of RFC 4733: 0-9, `*`, `#`, `A`-`D`.

  Codes outside that table map to the NUL character, which is the zero value
  of a Go rune. The module also has the encoder a sender uses and the reverse
  symbol table, and proves both round trips.
- `dtmf_reader.dfy`, module `DtmfReader`: the class `RTPDtmfReader` with the
  five detector fields (`lastEvent`, `lastTimestamp`, `endProcessed`, `dtmf`,
  `dtmfSet`) and the negotiated codec. Its methods are the constructor,
  `ProcessDTMFEvent`, `ReadDTMF` and `Read`. Each method is proved against the
  pure function `Process` on the `Detector` value of those fields, or against
  `AfterRead`. The invariant `Valid()` says that once the end of the current
  press has been reported, the latch holds that press's symbol. The
  single-packet lemmas take the branches of `processDTMFEvent` one by one.
- `dtmf_sequences.dfy`, module `DtmfSequences`: streams of packets, read the
  way every test reads them (process one packet, then read the latch).
  - `Run` replays a stream.
  - `PressYieldsOne` proves that the packets of one press give exactly one
    symbol once an end packet arrives, whatever the repeats.
  - `PressesYieldTheirSymbols` proves that separated presses give one symbol
    each, in order, even when the same digit is pressed again at a new
    timestamp.
- `dtmf_reader_tests.dfy`, module `DtmfReaderTests`: each test of
  `media/rtp_dtmf_reader_test.go` and `media/rtp_dtmf_reader_new_test.go`,
  replayed through the class's own methods, with the expected output proved.

The timestamp that `processDTMFEvent` reads from the shared packet reader's
header is an explicit parameter of `ProcessDTMFEvent`. The inner reader's
results are parameters of `Read`:
- the byte count and error;
- the buffer contents it left;
- the header of the packet it delivered.

Two behaviours of the code are easy to miss:
- When decoding fails, `Read` still feeds the zero-valued event (code 0, not an
  end) to the state machine (`media/rtp_dtmf_reader.go:52-56`). Such a packet
  can never yield a symbol, but it can open a new press of code 0, so detection
  for that packet is not simply skipped. See `MalformedNeverEmits`, and
  "## Findings" for the repeated digit this causes.
- `Read` decodes the whole buffer `b`, not only the `n` bytes the inner reader
  reported (`media/rtp_dtmf_reader.go:53`). `Read`'s contract uses `EventOf(b)`.

## Model

| member | source | states |
|---|---|---|
| `TelephoneEvent.Decode` | media/rtp_dtmf_reader.go:52-55 | Following RFC 4733 section 2.3: a payload shorter than 4 bytes is an error. Otherwise the event code is byte 0, the end flag is the top bit of byte 1, and the volume has 6 bits. |
| `TelephoneEvent.Encode` | media/rtp_dtmf_reader.go:52-55 | The sender-side encoding: exactly 4 bytes, event code first, R bit clear, E bit set exactly for end events. |
| `TelephoneEvent.DecodeEncode` | media/rtp_dtmf_reader.go:52-55 | Decoding an encoded well-formed event returns that event, whatever bytes follow it. |
| `TelephoneEvent.EncodeDecode` | media/rtp_dtmf_reader.go:52-55 | A payload with its R bit clear decodes to a well-formed event whose encoding is the payload's first 4 bytes. |
| `TelephoneEvent.ToRune` | media/rtp_dtmf_reader.go:79 | Following RFC 4733 section 3.2: exactly the codes 0-15 have a keypad symbol; every other code maps to the fallback NUL. |
| `TelephoneEvent.FromRune` | media/rtp_dtmf_reader.go:86 | The reverse table only ever yields codes of the sixteen DTMF keys. |
| `TelephoneEvent.ToRuneFromRune` | media/rtp_dtmf_reader.go:79 | The symbol table and its reverse are inverses on codes 0-15, in both directions. |
| `DtmfReader.Process` | media/rtp_dtmf_reader.go:60-95 | After any packet, the current press is the packet's code and timestamp. The end is marked reported iff the packet is an end, or it continues a press already reported. The latch is set to the packet's symbol iff the packet ends a press not yet reported; otherwise the latch is unchanged. |
| `DtmfReader.IsNewPress` | media/rtp_dtmf_reader.go:69 | A packet is a new press when its code or timestamp differs from the current press. The first packet of a DTMF key on a fresh reader is always a new press, and a packet that is not a new press has the current press's symbol. |
| `DtmfReader.AfterRead` | media/rtp_dtmf_reader.go:98 | Reading the latch clears its flag, keeps the symbol and every other field, and keeps the invariant. |
| `DtmfReader.EventOf` | media/rtp_dtmf_reader.go:51-55 | The event fed to the machine is the decoded one, or the zero event when the buffer is too short to decode. |
| `DtmfReader.RTPDtmfReader.constructor` | media/rtp_dtmf_reader.go:26-34 | A new reader has `lastEvent` 255, timestamp 0, no end reported and an empty latch, whatever minimum durations are given. It keeps the codec. |
| `DtmfReader.RTPDtmfReader.ProcessDTMFEvent` | media/rtp_dtmf_reader.go:60-95 | The new fields are `Process` of the old fields, the event and the timestamp, and the invariant is kept. |
| `DtmfReader.RTPDtmfReader.ReadDTMF` | media/rtp_dtmf_reader.go:97-102 | Returns the symbol and flag held before the call, then clears the flag and nothing else. Once the current press's end has been reported, the symbol returned is that press's symbol. |
| `DtmfReader.RTPDtmfReader.Read` | media/rtp_dtmf_reader.go:37-58 | Returns the inner reader's count and error unchanged. On an inner error, or when the payload type is not the codec's, the detector is untouched. Otherwise the detector takes one `Process` step on the decoded (or zero) event at the header's timestamp. Except when the payload cannot be decoded, this is the step of `ReadSkippingMalformed`. |
| `DtmfReader.ProcessKeepsConsistent` | media/rtp_dtmf_reader.go:71-93 | Processing a packet, and reading the latch, both keep the invariant that a reported press's symbol is the one in the latch. |
| `DtmfReader.NewPressPrimes` | media/rtp_dtmf_reader.go:69-76 | A non-end packet with a new code or timestamp only records its code and timestamp and clears the end-reported flag. It never touches the latch. |
| `DtmfReader.ImmediateEnd` | media/rtp_dtmf_reader.go:78-83 | An end packet that opens a new press is reported at once: the latch holds its symbol and its end is marked reported. |
| `DtmfReader.FirstEndReported` | media/rtp_dtmf_reader.go:84-89 | The first end packet of the current press sets the latch to its symbol and marks the end reported. |
| `DtmfReader.SamePressAbsorbed` | media/rtp_dtmf_reader.go:90-94 | A continuation packet of the current press, or a repeat of its reported end packet, leaves every field unchanged. |
| `DtmfReader.MalformedNeverEmits` | media/rtp_dtmf_reader.go:52-56 | A packet too short to decode never yields a symbol, but it makes code 0 the current press. |
| `DtmfReader.UnreadSymbolOverwritten` | media/rtp_dtmf_reader.go:78-81 | A second reported press overwrites a symbol that was never read: the latch keeps only the newest. |
| `DtmfReader.MalformedReopensPress` | media/rtp_dtmf_reader.go:52-56 | As written: after a press's end is reported, a retransmitted end packet yields nothing, but after a malformed packet at the same timestamp it yields the symbol again. |
| `DtmfReader.ReadSkippingMalformed` | media/rtp_dtmf_reader.go:37-58 | The corrected read step: an inner error, a foreign payload type or a payload too short to decode leaves the detector untouched; otherwise one `Process` step on the decoded event. |
| `DtmfReader.SkippingMalformedReportsOnce` | media/rtp_dtmf_reader.go:84-93 | With malformed packets skipped, a malformed packet followed by a retransmitted end of a reported press leaves the detector unchanged. |
| `DtmfReader.SecondReadFindsNothing` | media/rtp_dtmf_reader.go:97-99 | Reading the latch twice finds it clear the second time. The symbol itself is kept. |
| `DtmfSequences.Poll` | media/rtp_dtmf_reader_test.go:62-66 | One step of the tests' loop: afterwards the latch is clear and at most one symbol came out. From a clear latch, the symbol of the packet comes out exactly when the packet ends a press not yet reported. |
| `DtmfSequences.Run` | media/rtp_dtmf_reader_test.go:57-67 | Replays a stream, reading the latch after every packet. Afterwards the latch is clear. Starting from a clear latch, there are never more symbols than end packets. |
| `DtmfSequences.MalformedPacketRepeatsDigit` | media/rtp_dtmf_reader.go:52-56 | As written: digit 5 ended, then a malformed packet, then the retransmitted end of digit 5, all at timestamp 1000, give "55". |
| `DtmfSequences.ReportedPressSilent` | media/rtp_dtmf_reader.go:90-94 | After a press's end is reported, any further packets of that press yield nothing and change nothing. |
| `DtmfSequences.PressYieldsOne` | media/rtp_dtmf_reader.go:69-94 | The packets of one press, in any mix of continuations and repeated ends, yield exactly that press's symbol if one is an end packet, and nothing otherwise. The detector then sits in that press. |
| `DtmfSequences.ContinuationsThenEnds` | media/rtp_dtmf_reader.go:84-93 | N continuation packets followed by M >= 1 end packets: no symbol before the first end, the symbol on the first end, and nothing more from the repeats. |
| `DtmfSequences.PressesYieldTheirSymbols` | media/rtp_dtmf_reader.go:69-75 | Presses that differ from their predecessor in code or timestamp yield one symbol each, in order. Repeated presses of one digit count separately. |
| `DtmfReaderTests.Detect` | media/rtp_dtmf_reader_test.go:57-67 | The tests' loop, run on the class: the symbols collected and the final fields are exactly those of `Run`, and the count is the number of symbols. |
| `DtmfReaderTests.DetectPresses` | media/rtp_dtmf_reader_new_test.go:267-275 | Replaying separated presses on a ready reader collects one symbol per press. |
| `DtmfReaderTests.TestDTMFReader` | media/rtp_dtmf_reader_test.go:11-70 | Digits 1, 0 and 9, each with four continuation packets and three end packets, give "109". |
| `DtmfReaderTests.TestDTMFReaderOriginal` | media/rtp_dtmf_reader_new_test.go:228-278 | The same stream on a reader built by the constructor gives "109". |
| `DtmfReaderTests.TestDTMFReaderRepeated` | media/rtp_dtmf_reader_test.go:72-131 | Digit 1 pressed at timestamps 1000, 2000 and 3000 gives "111". |
| `DtmfReaderTests.Reset` | media/rtp_dtmf_reader_new_test.go:113-117 | The test's reset restores the initial fields and keeps the old symbol. |
| `DtmfReaderTests.ShortDurationCase` | media/rtp_dtmf_reader_new_test.go:112-133 | One case: reset the reader, replay the presses, collect one symbol per press. |
| `DtmfReaderTests.ShortDurationExpected` | media/rtp_dtmf_reader_new_test.go:57-108 | Each case's presses are separated, and their symbols are "1", "2", "345" and "6". |
| `DtmfReaderTests.TestDTMFShortDuration` | media/rtp_dtmf_reader_new_test.go:38-135 | Very short presses are accepted, including a lone end packet with one duplicate. The four cases give "1", "2", "345" and "6". |
| `DtmfReaderTests.TestDTMFDuplicateEndEvents` | media/rtp_dtmf_reader_new_test.go:137-170 | Three continuations and a triple end packet give "7", detected once. |
| `DtmfReaderTests.TestDTMFTimestampBasedDuplication` | media/rtp_dtmf_reader_new_test.go:172-210 | Digit 8 at timestamps 8000, 9000 and 10000 gives "888". |
| `DtmfReaderTests.TestDTMFBackwardCompatibility` | media/rtp_dtmf_reader_new_test.go:212-226 | No, one or two minimum durations all give a reader in the same initial state. |

## Findings

| source | as written | input that shows it | evidently intended | confidence | as-written member | corrected member |
|---|---|---|---|---|---|---|
| media/rtp_dtmf_reader.go:52-56 | When decoding fails, the zero event (code 0, not an end) is still fed to the state machine, which makes code 0 the current press. A retransmitted end packet of the press just reported then counts as a new press. | At timestamp 1000: the end packet of digit 5, a payload shorter than 4 bytes, then the end packet of digit 5 again. The reader reports "55". | A packet that cannot be decoded is skipped, so retransmitted end packets stay absorbed and the digit is reported once. | not executed | `DtmfReader.MalformedReopensPress`, `DtmfSequences.MalformedPacketRepeatsDigit` | `DtmfReader.ReadSkippingMalformed`, `DtmfReader.SkippingMalformedReportsOnce` |

The class's `Read` keeps the behaviour as written, since that is what the
code does. Its contract says that it agrees with `ReadSkippingMalformed` on
every read except one whose payload cannot be decoded.

## Left out

- The bodies of `DTMFDecode` and `DTMFToRune` are not part of this model. Both are stated from RFC 4733 instead. For byte 1 the model follows RFC 4733: the E bit, an R bit and a 6-bit volume. The volume plays no part in detection.
- Logging (`slog.Error`, the debug messages) has no effect on state and is left out.
- The inner `io.Reader` and the shared `RTPPacketReader` are inputs, not objects. `Read` receives what they produced: count, error, buffer and header. The model does not capture their aliasing with other users of the packet reader.
- `Codec` keeps only its payload type. Its other fields do not affect the reader.
- No lock guards the fields. Concurrent use of `Read` and `ReadDTMF` from two goroutines is not modelled.
- The test mock `mockRTPReader` (`media/rtp_dtmf_reader_new_test.go:13-36`) marshals packets with a library that is not part of this model.
- `ringtone.go` and `dialog_client_session_test.go` are not part of this model: tone synthesis, caching, goroutines and SIP networking.
- RTP timestamps are modelled as 32-bit values but never added, so wrap-around does not arise. Only their equality matters.
