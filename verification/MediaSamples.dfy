/** The bytes on the wire and the clock, said from the reads themselves: which sample each byte encodes and how, and how
  * far a silent tick moves the clock. */
module MediaSamples {
  import opened Common
  import opened RtpPacket
  import opened MediaFork
  import opened MediaTimeline
  import opened MediaFrames

  // ---- what a read contributes ----

  /** A read that is forked: two channels when the streams are separate, and at 8 kHz or resampled to it. */
  predicate IsForked(separate: bool, r: Read) {
    (separate ==> r.channels == 2) && (r.rate == 0 || r.rate == 8000 || r.to8k.Some?)
  }

  /** Its samples: resampled if need be, else as they are for separate streams or one channel, else the mono mix. */
  ghost predicate Samples8k(separate: bool, r: Read, pcm: seq<Sample>) {
    && (r.rate != 0 && r.rate != 8000 ==> r.to8k == Some(pcm))
    && ((r.rate == 0 || r.rate == 8000) && (separate || r.channels < 2) ==> pcm == r.data)
    && ((r.rate == 0 || r.rate == 8000) && !separate && r.channels > 1 ==> pcm == r.mixed)
  }

  /** The forked reads of one tick, and of the ticks a run delivered while not paused. */
  function ForkedOf(separate: bool, frames: seq<Read>): seq<Read> {
    if frames == [] then []
    else ForkedOf(separate, frames[..|frames| - 1])
         + if IsForked(separate, frames[|frames| - 1]) then [frames[|frames| - 1]] else []
  }

  function ForkedReads(g: G711, start: Fork, ops: seq<Op>): seq<Read>
    requires Wired(start)
  {
    if ops == [] then []
    else
      var f, op := Run(g, start, ops[..|ops| - 1]), ops[|ops| - 1];
      ForkedReads(g, start, ops[..|ops| - 1])
      + if op.Ticked? && f.bug && !f.paused then ForkedOf(start.separate, op.frames) else []
  }

  /** `payload` is channel `i` of the read: its first 1500 samples at most, A-law for payload type 8, else mu-law. */
  ghost predicate Encodes(g: G711, separate: bool, pt: Byte, i: nat, r: Read, payload: seq<Byte>) {
    exists pcm :: Samples8k(separate, r, pcm) && EncodesSamples(g, if separate then 2 else 1, pt, i, pcm, payload)
  }

  ghost predicate EncodesSamples(g: G711, lanes: nat, pt: Byte, i: nat, pcm: seq<Sample>, payload: seq<Byte>) {
    && 1 <= lanes <= 2 && i < lanes
    && |payload| == (if |pcm| / lanes <= 1500 then |pcm| / lanes else 1500)
    && forall k :: 0 <= k < |payload| ==>
         k * lanes + i < |pcm| && payload[k] == if pt == 8 then g.alaw(pcm[k * lanes + i]) else g.ulaw(pcm[k * lanes + i])
  }

  lemma ForkedIsUsable(separate: bool, r: Read)
    ensures IsForked(separate, r) <==> Usable(separate, r).Some?
    ensures IsForked(separate, r) ==> Samples8k(separate, r, Usable(separate, r).value)
  {
  }

  lemma LaneEncodes(g: G711, lanes: nat, pt: Byte, i: nat, pcm: seq<Sample>)
    requires 1 <= lanes <= 2 && i < lanes
    ensures EncodesSamples(g, lanes, pt, i, pcm, Encoded(g, pt, Lane(pcm, i, lanes)))
  {
    forall k | 0 <= k < |pcm| / lanes ensures k * lanes + i < |pcm| { LaneInside(|pcm|, i, lanes, k); }
  }

  /** One payload per read. */
  ghost predicate AllEncode(g: G711, separate: bool, pt: Byte, i: nat, rs: seq<Read>, payloads: seq<seq<Byte>>) {
    |payloads| == |rs| && forall m :: 0 <= m < |rs| ==> Encodes(g, separate, pt, i, rs[m], payloads[m])
  }

  lemma AllEncodeBoth(g: G711, separate: bool, pt: Byte, i: nat, rs: seq<Read>, ps: seq<seq<Byte>>, rs': seq<Read>, ps': seq<seq<Byte>>)
    requires AllEncode(g, separate, pt, i, rs, ps) && AllEncode(g, separate, pt, i, rs', ps')
    ensures AllEncode(g, separate, pt, i, rs + rs', ps + ps')
  {
  }

  lemma {:induction false} TickEncodes(g: G711, separate: bool, pt: Byte, frames: seq<Read>, i: nat)
    requires i < if separate then 2 else 1
    ensures AllEncode(g, separate, pt, i, ForkedOf(separate, frames), Owed(g, separate, pt, frames, i))
  {
    if frames != [] {
      var init, r := frames[..|frames| - 1], frames[|frames| - 1];
      TickEncodes(g, separate, pt, init, i);
      ForkedIsUsable(separate, r);
      if IsForked(separate, r) {
        var pcm := Usable(separate, r).value;
        LaneEncodes(g, if separate then 2 else 1, pt, i, pcm);
        var payload := Encoded(g, pt, Lane(pcm, i, if separate then 2 else 1));
        assert Encodes(g, separate, pt, i, r, payload);
        AllEncodeBoth(g, separate, pt, i, ForkedOf(separate, init), Owed(g, separate, pt, init, i), [r], [payload]);
      }
    }
  }

  lemma {:induction false} RunEncodes(g: G711, start: Fork, ops: seq<Op>, i: nat)
    requires Wired(start) && i < |start.streams|
    ensures AllEncode(g, start.separate, start.streams[i].pt, i, ForkedReads(g, start, ops), OwedBy(g, start, ops, i))
  {
    if ops != [] {
      var init, op, pt := ops[..|ops| - 1], ops[|ops| - 1], start.streams[i].pt;
      RunEncodes(g, start, init, i);
      var f := Run(g, start, init);
      if op.Ticked? && f.bug && !f.paused {
        TickEncodes(g, start.separate, pt, op.frames, i);
        AllEncodeBoth(g, start.separate, pt, i, ForkedReads(g, start, init), OwedBy(g, start, init, i),
                      ForkedOf(start.separate, op.frames), Owed(g, start.separate, pt, op.frames, i));
      }
    }
  }

  /** Over any run the j-th event, if a packet, is the next of its stream; its bytes are that stream's channel of the read
    * it was cut from, sample by sample, A-law exactly when the stream's payload type is 8, which is what the packet says on
    * the wire for any type of 7 bits. */
  lemma PacketEncodesRead(g: G711, start: Fork, ops: seq<Op>, j: nat) returns (r: Read)
    requires Fresh(start) && j < |Run(g, start, ops).log| && Run(g, start, ops).log[j].Sent?
    ensures var log, forked := Run(g, start, ops).log, ForkedReads(g, start, ops);
      var i := log[j].stream;
      && i < |start.streams| && SentBefore(log[..j], i) < |forked| && r == forked[SentBefore(log[..j], i)]
      && Encodes(g, start.separate, start.streams[i].pt, i, r, log[j].packet.payload)
      && (start.streams[i].pt < 128 ==> log[j].packet.pt == start.streams[i].pt)
  {
    var log := Run(g, start, ops).log;
    var i := log[j].stream;
    PacketTimeline(g, start, ops, j);
    PayloadAt(log, i, j);
    PayloadsAreTheAudio(g, start, ops, i);
    RunEncodes(g, start, ops, i);
    r := ForkedReads(g, start, ops)[SentBefore(log[..j], i)];
  }

  // ---- silence ----

  /** A tick on a live, unpaused fork without a forked read moves every stream's clock by the leg's packet time in whole
    * 8 kHz samples, or by 20 ms when that is unknown, and marks its next packet; with one it is the packets that do. */
  lemma SilenceOnTheClock(g: G711, f: Fork, frames: seq<Read>, microseconds: int, i: nat)
    requires Wired(f) && f.bug && !f.paused && i < |f.streams|
    requires forall k :: 0 <= k < |frames| ==> !IsForked(f.separate, frames[k])
    ensures var f' := Apply(g, f, Ticked(frames, microseconds));
      && |f'.streams| == |f.streams| && f'.streams[i].markerPending && f'.streams[i].sequence == f.streams[i].sequence
      && f'.streams[i].timestamp
         == (f.streams[i].timestamp + if microseconds > 0 then microseconds * 8000 / 1_000_000 else 160) % 0x1_0000_0000
  {
    forall k | 0 <= k < |frames| ensures Usable(f.separate, frames[k]).None? { ForkedIsUsable(f.separate, frames[k]); }
    if microseconds > 0 { EightKilohertz(microseconds); }
  }

  /** What a resume does to stream `i`: its clock moves by the 8 kHz samples of the pause, backwards should the microsecond
    * clock have gone backwards, its next packet is marked, and the fork sends again. */
  lemma ResumeOnTheClock(g: G711, f: Fork, now: int, i: nat)
    requires Wired(f) && f.bug && i < |f.streams|
    ensures var f' := Apply(g, f, Direction(false, now));
      && !f'.paused && f'.pausedAt == 0 && |f'.streams| == |f.streams|
      && f'.streams[i].markerPending && f'.streams[i].sequence == f.streams[i].sequence
      && f'.streams[i].timestamp
         == (if f.pausedAt == 0 then f.streams[i].timestamp
             else if now >= f.pausedAt then (f.streams[i].timestamp + (now - f.pausedAt) * 8000 / 1_000_000) % 0x1_0000_0000
             else (f.streams[i].timestamp - (f.pausedAt - now) * 8000 / 1_000_000) % 0x1_0000_0000)
  {
    var d := now - f.pausedAt;
    if d >= 0 { EightKilohertz(d); Added(f.streams[i].timestamp, d / MICROS_PER_SAMPLE); }
    else { EightKilohertz(-d); Added(f.streams[i].timestamp, -(-d / MICROS_PER_SAMPLE)); }
  }

  lemma Added(stamp: Word32, n: int)
    ensures (stamp + n % M32) % M32 == (stamp + n) % M32
  {
  }

  lemma EightKilohertz(microseconds: nat)
    ensures microseconds * 8000 / 1_000_000 == microseconds / 125
  {
  }

  // ---- the counters a detach reports ----

  /** How many packets of stream `i` the network took, or refused. */
  function Attempts(log: seq<Event>, i: nat, ok: bool): nat {
    if log == [] then 0
    else Attempts(log[..|log| - 1], i, ok) + if IsSent(log[|log| - 1], i) && log[|log| - 1].ok == ok then 1 else 0
  }

  ghost predicate Counted(start: Fork, f: Fork) {
    && |f.streams| == |start.streams|
    && forall i :: 0 <= i < |f.streams| ==>
         && f.streams[i].packetsSent == start.streams[i].packetsSent + Attempts(f.log, i, true)
         && f.streams[i].sendErrors == start.streams[i].sendErrors + Attempts(f.log, i, false)
  }

  lemma AttemptsSnoc(log: seq<Event>, e: Event, i: nat, ok: bool)
    ensures Attempts(log + [e], i, ok) == Attempts(log, i, ok) + if IsSent(e, i) && e.ok == ok then 1 else 0
  {
    assert (log + [e])[..|log|] == log;
  }

  lemma OneCounted(was: Stream, log: seq<Event>, k: nat, pkt: Packet, ok: bool, n: nat)
    ensures var more := log + [Sent(k, pkt, ok)];
      && Advanced(was, n, ok).packetsSent == was.packetsSent + Attempts(more, k, true) - Attempts(log, k, true)
      && Advanced(was, n, ok).sendErrors == was.sendErrors + Attempts(more, k, false) - Attempts(log, k, false)
  {
    AttemptsSnoc(log, Sent(k, pkt, ok), k, true);
    AttemptsSnoc(log, Sent(k, pkt, ok), k, false);
  }

  lemma SendCounted(start: Fork, f: Fork, k: nat, payload: seq<Byte>, ok: bool)
    requires Counted(start, f) && k < |f.streams|
    ensures Counted(start, Send(f, k, payload, ok))
  {
    var pkt := PacketOf(f.streams[k], payload);
    OneCounted(f.streams[k], f.log, k, pkt, ok, |payload|);
    forall i, b | 0 <= i < |f.streams| && i != k
      ensures Attempts(f.log + [Sent(k, pkt, ok)], i, b) == Attempts(f.log, i, b)
    {
      AttemptsSnoc(f.log, Sent(k, pkt, ok), i, b);
    }
  }

  lemma {:induction false} ReadsCounted(g: G711, start: Fork, f: Fork, frames: seq<Read>)
    requires Wired(f) && Counted(start, f)
    ensures Counted(start, SendReads(g, f, frames))
  {
    if frames != [] {
      var init, r := frames[..|frames| - 1], frames[|frames| - 1];
      ReadsCounted(g, start, f, init);
      if Usable(f.separate, r).Some? { AllCounted(g, start, SendReads(g, f, init), Usable(f.separate, r).value, r); }
    }
  }

  lemma AllCounted(g: G711, start: Fork, f: Fork, pcm: seq<Sample>, r: Read)
    requires Wired(f) && Counted(start, f)
    ensures Counted(start, SendAll(g, f, pcm, r))
  {
    if f.separate {
      var left := Encoded(g, f.streams[0].pt, Lane(pcm, 0, 2));
      SendCounted(start, f, 0, left, r.delivered);
      SendCounted(start, Send(f, 0, left, r.delivered), 1, Encoded(g, f.streams[1].pt, Lane(pcm, 1, 2)), r.delivered2);
    } else {
      SendCounted(start, f, 0, Encoded(g, f.streams[0].pt, Lane(pcm, 0, 1)), r.delivered);
    }
  }

  lemma SkipCounted(start: Fork, f: Fork, f': Fork, n: nat, e: Event)
    requires Counted(start, f) && !e.Sent? && f'.streams == SkipAll(f.streams, n) && f'.log == f.log + [e]
    ensures Counted(start, f')
  {
    assert f'.log[..|f.log|] == f.log;
  }

  /** Over any run a stream's two counters have grown by its packets that the network took and refused. */
  lemma {:induction false} CountersCount(g: G711, start: Fork, ops: seq<Op>)
    requires Fresh(start)
    ensures Counted(start, Run(g, start, ops))
  {
    if ops != [] {
      var f, op := Run(g, start, ops[..|ops| - 1]), ops[|ops| - 1];
      CountersCount(g, start, ops[..|ops| - 1]);
      if op.Ticked? && f.bug && !f.paused {
        if AnyUsable(f.separate, op.frames) { ReadsCounted(g, start, f, op.frames); }
        else { SkipCounted(start, f, Apply(g, f, op), TickOf(op.microseconds), Silent(TickOf(op.microseconds))); }
      } else if op.Direction? && f.bug && !op.pause {
        SkipCounted(start, f, Apply(g, f, op), GapOf(f.pausedAt, op.now), Resumed(GapOf(f.pausedAt, op.now)));
      }
    }
  }
}
