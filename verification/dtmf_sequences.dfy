/**
  Streams of telephone-event packets as a consumer sees them when it reads
  the latch after every packet: each key press, with its continuation packets
  and its repeated end packets, comes out as exactly one symbol.
 */
module DtmfSequences {

  import opened TelephoneEvent
  import opened DtmfReader

  /** A telephone-event packet together with the RTP timestamp of its header. */
  datatype Packet = Packet(ev: Event, timestamp: uint32)

  /** Feeds one packet, then reads the latch: the new detector and what the read yielded. */
  function Poll(d: Detector, p: Packet): (r: (Detector, string))
    ensures !r.0.dtmfSet && |r.1| <= 1
    ensures !d.dtmfSet ==> r.1 == if Emits(d, p.ev, p.timestamp) then [ToRune(p.ev.event)] else ""
  {
    var next := Process(d, p.ev, p.timestamp);
    (AfterRead(next), if next.dtmfSet then [next.dtmf] else "")
  }

  /** The number of end packets in a stream. */
  function Ends(ps: seq<Packet>): (k: nat)
    ensures k <= |ps|
  {
    if ps == [] then 0 else (if ps[0].ev.endOfEvent then 1 else 0) + Ends(ps[1..])
  }

  /**
    Feeds a stream packet by packet, reading the latch after each one.
    Starting from an empty latch, only end packets produce symbols.
   */
  function Run(d: Detector, ps: seq<Packet>): (r: (Detector, string))
    ensures ps != [] ==> !r.0.dtmfSet
    ensures ps == [] ==> r.0 == d
    ensures !d.dtmfSet ==> |r.1| <= Ends(ps)
    decreases |ps|
  {
    if ps == [] then (d, "")
    else
      var (next, out) := Poll(d, ps[0]);
      var (last, rest) := Run(next, ps[1..]);
      (last, out + rest)
  }

  /** Running two streams one after the other is running their concatenation. */
  lemma {:induction false} RunAppend(d: Detector, a: seq<Packet>, b: seq<Packet>)
    ensures Run(d, a + b) == (Run(Run(d, a).0, b).0, Run(d, a).1 + Run(Run(d, a).0, b).1)
    decreases |a|
  {
    if a == [] {
      assert a + b == b;
      assert Run(d, a) == (d, "");
      assert "" + Run(d, b).1 == Run(d, b).1;
    } else {
      assert (a + b)[0] == a[0];
      assert (a + b)[1..] == a[1..] + b;
      var (next, out) := Poll(d, a[0]);
      RunAppend(next, a[1..], b);
      var mid := Run(next, a[1..]);
      assert Run(d, a) == (mid.0, out + mid.1);
      assert Run(d, a + b) == (Run(next, a[1..] + b).0, out + Run(next, a[1..] + b).1);
      assert out + (mid.1 + Run(mid.0, b).1) == (out + mid.1) + Run(mid.0, b).1;
    }
  }

  /** Every packet of `ps` carries event code `event` and timestamp `timestamp`. */
  predicate InPress(ps: seq<Packet>, event: uint8, timestamp: uint32) {
    forall i :: 0 <= i < |ps| ==> ps[i].ev.event == event && ps[i].timestamp == timestamp
  }

  predicate HasEnd(ps: seq<Packet>) {
    exists i :: 0 <= i < |ps| && ps[i].ev.endOfEvent
  }

  /**
    The detector is ready for a press of `event` at `timestamp`: the latch is
    empty, and the press either is new or has not had its end reported.
   */
  predicate Ready(d: Detector, event: uint8, timestamp: uint32) {
    !d.dtmfSet && (IsNewPress(d, event, timestamp) || !d.endProcessed)
  }

  /**
    The stream of the code as written: digit 5 ends its press, a packet too
    short to decode arrives with the same timestamp, then the end packet is
    retransmitted. The digit is reported twice.
   */
  lemma MalformedPacketRepeatsDigit()
    ensures Run(Initial, [Packet(Event(5, true, 10, 800), 1000), Packet(EventOf([]), 1000),
                          Packet(Event(5, true, 10, 800), 1000)]).1 == "55"
  {
  }

  /** Within a press whose end has been reported, nothing more comes out and nothing changes. */
  lemma {:induction false} ReportedPressSilent(d: Detector, ps: seq<Packet>)
    requires InPress(ps, d.lastEvent, d.lastTimestamp)
    requires d.endProcessed && !d.dtmfSet
    ensures Run(d, ps) == (d, "")
    decreases |ps|
  {
    if ps != [] {
      SamePressAbsorbed(d, ps[0].ev, ps[0].timestamp);
      ReportedPressSilent(d, ps[1..]);
    }
  }

  /**
    The packets of one press, in any mix of continuation and end packets,
    produce exactly one symbol if one of them is an end packet and none
    otherwise; afterwards the detector sits in that press.
   */
  lemma {:induction false} PressYieldsOne(d: Detector, ps: seq<Packet>, event: uint8, timestamp: uint32)
    requires InPress(ps, event, timestamp) && Ready(d, event, timestamp)
    ensures Run(d, ps).1 == if HasEnd(ps) then [ToRune(event)] else ""
    ensures ps != [] ==> Run(d, ps).0.lastEvent == event && Run(d, ps).0.lastTimestamp == timestamp
    ensures ps != [] ==> (Run(d, ps).0.endProcessed <==> HasEnd(ps))
    decreases |ps|
  {
    if ps != [] {
      var next := Poll(d, ps[0]).0;
      assert InPress(ps[1..], event, timestamp);
      if ps[0].ev.endOfEvent {
        assert Poll(d, ps[0]).1 == [ToRune(event)];
        ReportedPressSilent(next, ps[1..]);
        assert HasEnd(ps) by { assert ps[0].ev.endOfEvent; }
      } else {
        assert Poll(d, ps[0]).1 == "";
        PressYieldsOne(next, ps[1..], event, timestamp);
        assert HasEnd(ps) <==> HasEnd(ps[1..]) by {
          if HasEnd(ps[1..]) {
            var i :| 0 <= i < |ps[1..]| && ps[1..][i].ev.endOfEvent;
            assert ps[i + 1].ev.endOfEvent;
          }
        }
        if ps[1..] == [] {
          assert !HasEnd(ps);
        }
      }
    }
  }

  /**
    A press of continuation packets followed by at least one end packet:
    nothing comes out before the first end packet, its symbol comes out on
    the first end packet, and the repeated end packets add nothing.
   */
  lemma ContinuationsThenEnds(d: Detector, conts: seq<Packet>, ends: seq<Packet>, event: uint8, timestamp: uint32)
    requires InPress(conts, event, timestamp) && InPress(ends, event, timestamp)
    requires forall i :: 0 <= i < |conts| ==> !conts[i].ev.endOfEvent
    requires forall i :: 0 <= i < |ends| ==> ends[i].ev.endOfEvent
    requires |ends| >= 1 && Ready(d, event, timestamp)
    ensures Run(d, conts).1 == ""
    ensures Run(d, conts + ends[..1]).1 == [ToRune(event)]
    ensures Run(d, conts + ends).1 == [ToRune(event)]
  {
    PressYieldsOne(d, conts, event, timestamp);
    assert !HasEnd(conts);
    var first := conts + ends[..1];
    InPressAppend(conts, ends[..1], event, timestamp);
    assert first[|conts|].ev.endOfEvent;
    PressYieldsOne(d, first, event, timestamp);
    var all := conts + ends;
    InPressAppend(conts, ends, event, timestamp);
    assert all[|conts|].ev.endOfEvent;
    PressYieldsOne(d, all, event, timestamp);
  }

  lemma InPressAppend(a: seq<Packet>, b: seq<Packet>, event: uint8, timestamp: uint32)
    requires InPress(a, event, timestamp) && InPress(b, event, timestamp)
    ensures InPress(a + b, event, timestamp)
  {
    forall i | 0 <= i < |a + b| ensures (a + b)[i].ev.event == event && (a + b)[i].timestamp == timestamp {
      if i >= |a| { assert (a + b)[i] == b[i - |a|]; }
    }
  }

  /** One key press: its event code, its RTP timestamp and the packets that carry it. */
  datatype Press = Press(event: uint8, timestamp: uint32, packets: seq<Packet>)

  /** The packets all belong to the press, and one of them ends it. */
  predicate IsPress(p: Press) {
    InPress(p.packets, p.event, p.timestamp) && HasEnd(p.packets)
  }

  /** Consecutive presses differ in event code or in timestamp. */
  predicate Separated(presses: seq<Press>) {
    forall i :: 0 < i < |presses| ==> IsNewPressAfter(presses[i - 1], presses[i])
  }

  predicate IsNewPressAfter(p: Press, q: Press) {
    p.event != q.event || p.timestamp != q.timestamp
  }

  function Flatten(presses: seq<Press>): seq<Packet>
  {
    if presses == [] then [] else presses[0].packets + Flatten(presses[1..])
  }

  /** The symbol of each press, in order. */
  function PressSymbols(presses: seq<Press>): (s: string)
    ensures |s| == |presses|
  {
    seq(|presses|, i requires 0 <= i < |presses| => ToRune(presses[i].event))
  }

  /**
    A stream of separated presses produces one symbol per press, in order:
    repeated presses of the same key are told apart by their timestamps.
   */
  lemma {:induction false} PressesYieldTheirSymbols(d: Detector, presses: seq<Press>)
    requires forall i :: 0 <= i < |presses| ==> IsPress(presses[i])
    requires Separated(presses)
    requires !d.dtmfSet
    requires presses != [] ==> Ready(d, presses[0].event, presses[0].timestamp)
    ensures Run(d, Flatten(presses)).1 == PressSymbols(presses)
    decreases |presses|
  {
    if presses != [] {
      var p := presses[0];
      RunAppend(d, p.packets, Flatten(presses[1..]));
      PressYieldsOne(d, p.packets, p.event, p.timestamp);
      var next := Run(d, p.packets).0;
      var tail := presses[1..];
      assert Separated(tail) by {
        forall i | 0 < i < |tail| ensures IsNewPressAfter(tail[i - 1], tail[i]) {
          assert tail[i - 1] == presses[i] && tail[i] == presses[i + 1];
        }
      }
      if tail != [] {
        assert IsNewPressAfter(presses[0], presses[1]);
        assert p.packets != [] by { assert IsPress(p); }
      }
      PressesYieldTheirSymbols(next, tail);
      assert PressSymbols(presses) == [ToRune(p.event)] + PressSymbols(tail);
    }
  }
}
