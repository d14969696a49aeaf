/**
  The reader's tests, replayed through the class: each feeds a stream of
  telephone-event packets one by one, reads the latch after every packet and
  collects the symbols it finds.
 */
module DtmfReaderTests {

  import opened TelephoneEvent
  import opened DtmfReader
  import opened DtmfSequences

  /** The tests' loop: process each packet, read the latch, collect what was set. */
  method Detect(reader: RTPDtmfReader, packets: seq<Packet>) returns (detected: string, count: nat)
    requires reader.Valid()
    modifies reader
    ensures reader.Valid()
    ensures (reader.State(), detected) == Run(old(reader.State()), packets)
    ensures count == |detected|
  {
    detected, count := "", 0;
    ghost var start := reader.State();
    for i := 0 to |packets|
      invariant reader.Valid()
      invariant (reader.State(), detected) == Run(start, packets[..i])
      invariant count == |detected|
    {
      ghost var before := reader.State();
      reader.ProcessDTMFEvent(packets[i].ev, packets[i].timestamp);
      var dtmf, isSet := reader.ReadDTMF();
      ghost var out := if isSet then [dtmf] else "";
      assert Poll(before, packets[i]) == (reader.State(), out);
      assert Run(before, [packets[i]]) == (reader.State(), out + "");
      if isSet {
        detected := detected + [dtmf];
        count := count + 1;
      }
      assert detected == Run(start, packets[..i]).1 + (out + "");
      RunAppend(start, packets[..i], [packets[i]]);
      assert packets[..i + 1] == packets[..i] + [packets[i]];
    }
    assert packets[..|packets|] == packets;
  }

  /** Replays separated presses on a reader that is ready for the first: one symbol per press. */
  method DetectPresses(reader: RTPDtmfReader, presses: seq<Press>) returns (detected: string, count: nat)
    requires reader.Valid()
    requires forall i :: 0 <= i < |presses| ==> IsPress(presses[i])
    requires Separated(presses) && !reader.dtmfSet
    requires presses != [] ==> Ready(reader.State(), presses[0].event, presses[0].timestamp)
    modifies reader
    ensures reader.Valid()
    ensures detected == PressSymbols(presses) && count == |presses|
  {
    PressesYieldTheirSymbols(reader.State(), presses);
    detected, count := Detect(reader, Flatten(presses));
  }

  /** A packet of the tests: they all use volume 10. */
  function Tone(event: uint8, end: bool, duration: uint16, timestamp: uint32): Packet {
    Packet(Event(event, end, 10, duration), timestamp)
  }

  /** Packets of one press with the given durations, all continuation packets or all end packets. */
  function Tones(event: uint8, end: bool, durations: seq<uint16>, timestamp: uint32): (ps: seq<Packet>)
    ensures |ps| == |durations| && InPress(ps, event, timestamp)
    ensures forall i :: 0 <= i < |ps| ==> ps[i].ev.endOfEvent == end
  {
    seq(|durations|, i requires 0 <= i < |durations| => Tone(event, end, durations[i], timestamp))
  }

  /** A press as the tests send it: continuation packets, then at least one end packet. */
  function TestPress(event: uint8, timestamp: uint32, continuations: seq<uint16>, ends: seq<uint16>): (p: Press)
    requires |ends| > 0
    ensures IsPress(p) && p.event == event && p.timestamp == timestamp
  {
    var p := Press(event, timestamp, Tones(event, false, continuations, timestamp) + Tones(event, true, ends, timestamp));
    assert p.packets[|continuations|].ev.endOfEvent;
    p
  }

  /** The press most tests use: four continuation packets, then the end packet three times. */
  function FullPress(event: uint8, timestamp: uint32): (p: Press)
    ensures IsPress(p) && p.event == event && p.timestamp == timestamp
  {
    TestPress(event, timestamp, [160, 320, 480, 640], [800, 800, 800])
  }

  /** Digits 1, 0 and 9, each pressed with retransmitted end packets, come out as "109". */
  method TestDTMFReader() returns (detected: string)
    ensures detected == "109"
  {
    var r := new RTPDtmfReader(Codec(0), []);
    var presses := [FullPress(1, 1000), FullPress(0, 2000), FullPress(9, 3000)];
    var count;
    detected, count := DetectPresses(r, presses);
  }

  /** The same "109" stream, on a reader built by the constructor for payload type 101. */
  method TestDTMFReaderOriginal() returns (detected: string)
    ensures detected == "109"
  {
    var r := new RTPDtmfReader(Codec(101), []);
    var count;
    detected, count := DetectPresses(r, [FullPress(1, 1000), FullPress(0, 2000), FullPress(9, 3000)]);
  }

  /** Digit 1 pressed three times, at three timestamps, comes out three times. */
  method TestDTMFReaderRepeated() returns (detected: string)
    ensures detected == "111"
  {
    var r := new RTPDtmfReader(Codec(0), []);
    var presses := [FullPress(1, 1000), FullPress(1, 2000), FullPress(1, 3000)];
    var count;
    detected, count := DetectPresses(r, presses);
  }

  /** The state reset the short-duration test performs between its cases. */
  method Reset(r: RTPDtmfReader)
    requires r.Valid()
    modifies r
    ensures r.Valid() && r.State() == Initial.(dtmf := old(r.dtmf))
  {
    r.lastEvent := NoEvent;
    r.lastTimestamp := 0;
    r.endProcessed := false;
    r.dtmfSet := false;
  }

  /** One case of the short-duration test: reset the reader, then replay the case's presses. */
  method ShortDurationCase(r: RTPDtmfReader, presses: seq<Press>) returns (detected: string)
    requires r.Valid()
    requires forall i :: 0 <= i < |presses| ==> IsPress(presses[i])
    requires Separated(presses)
    modifies r
    ensures r.Valid() && detected == PressSymbols(presses)
  {
    Reset(r);
    var count;
    detected, count := DetectPresses(r, presses);
  }

  /** The four cases of the short-duration test, each a list of presses. */
  function ShortDurationCases(): (cases: seq<seq<Press>>)
    ensures |cases| == 4
    ensures forall c, i :: 0 <= c < |cases| && 0 <= i < |cases[c]| ==> IsPress(cases[c][i])
  {
    [ [TestPress(1, 1000, [80], [160, 160, 160])],
      [TestPress(2, 2000, [160, 240], [320, 320])],
      [TestPress(3, 3000, [80], [240]), TestPress(4, 4000, [80], [200]), TestPress(5, 5000, [160], [400])],
      [TestPress(6, 6000, [], [200, 200])] ]
  }

  /** What each case of the short-duration test expects. */
  lemma ShortDurationExpected()
    ensures forall c :: 0 <= c < 4 ==> Separated(ShortDurationCases()[c])
    ensures PressSymbols(ShortDurationCases()[0]) == "1" && PressSymbols(ShortDurationCases()[1]) == "2"
    ensures PressSymbols(ShortDurationCases()[2]) == "345" && PressSymbols(ShortDurationCases()[3]) == "6"
  {
    var cases: seq<seq<Press>> := ShortDurationCases();
    assert |cases[0]| == |cases[1]| == |cases[3]| == 1 && |cases[2]| == 3;
    assert PressSymbols(cases[0]) == [ToRune(1)];
    assert PressSymbols(cases[1]) == [ToRune(2)];
    assert PressSymbols(cases[2]) == [ToRune(3), ToRune(4), ToRune(5)];
    assert PressSymbols(cases[3]) == [ToRune(6)];
  }

  /** Short presses are accepted: each case yields its digits once, whatever their durations. */
  method TestDTMFShortDuration() returns (detected: seq<string>)
    ensures detected == ["1", "2", "345", "6"]
  {
    var r := new RTPDtmfReader(Codec(101), []);
    var cases := ShortDurationCases();
    ShortDurationExpected();
    detected := [];
    for c := 0 to |cases|
      invariant r.Valid()
      invariant |detected| == c
      invariant forall k :: 0 <= k < c ==> detected[k] == PressSymbols(cases[k])
    {
      var found := ShortDurationCase(r, cases[c]);
      detected := detected + [found];
    }
  }

  /** The end packet sent three times is reported once. */
  method TestDTMFDuplicateEndEvents() returns (detected: string, detectionCount: nat)
    ensures detected == "7" && detectionCount == 1
  {
    var r := new RTPDtmfReader(Codec(101), []);
    var p := TestPress(7, 7000, [160, 320, 480], [640, 640, 640]);
    detected, detectionCount := DetectPresses(r, [p]);
  }

  /** The same digit at three timestamps is three presses. */
  method TestDTMFTimestampBasedDuplication() returns (detected: string)
    ensures detected == "888"
  {
    var r := new RTPDtmfReader(Codec(101), []);
    var presses := [TestPress(8, 8000, [160], [320]), TestPress(8, 9000, [160], [320]), TestPress(8, 10000, [160], [320])];
    var count;
    detected, count := DetectPresses(r, presses);
  }

  /** Minimum durations, none, one or two, are accepted and leave the reader in the same state. */
  method TestDTMFBackwardCompatibility() returns (s1: Detector, s2: Detector, s3: Detector)
    ensures s1 == s2 == s3 == Initial
  {
    var r1 := new RTPDtmfReader(Codec(101), []);
    var r2 := new RTPDtmfReader(Codec(101), [480]);
    var r3 := new RTPDtmfReader(Codec(101), [160, 320]);
    s1, s2, s3 := r1.State(), r2.State(), r3.State();
  }
}
