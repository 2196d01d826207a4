/** The RTP fork of one recording: what a media tick, a pause and a resume do to its streams.
  *
  * The functions on `Fork` are the specification; MediaCtx is the object that the media-bug callback and
  * siprec_media_set_paused update in place. What the network and FreeSWITCH answer comes in as data: the frames
  * one tick reads, the resampler's output, whether each sendto succeeded, the clock. */
module MediaFork {
  import opened Common
  import opened RtpPacket

  type Sample = x: int | -0x8000 <= x < 0x8000

  const G711_RATE := 8000
  const MICROS_PER_SAMPLE := 125
  const M16 := 0x1_0000
  const M32 := 0x1_0000_0000

  datatype Stream = Stream(pt: Byte, ssrc: Word32, sequence: Word16, timestamp: Word32, markerPending: bool,
                           packetsSent: nat, sendErrors: nat)

  /** The two G.711 encoders. */
  datatype G711 = G711(ulaw: Sample -> Byte, alaw: Sample -> Byte)

  /** What the fork did, in order: an attempted packet, a silent tick, a resume. */
  datatype Event = Sent(stream: nat, packet: Packet, ok: bool) | Silent(tick: Word32) | Resumed(gap: Word32)

  datatype Fork = Fork(separate: bool, streams: seq<Stream>, bug: bool, paused: bool, pausedAt: int,
                       legEnded: bool, log: seq<Event>)

  /** One successful switch_core_media_bug_read: interleaved samples with the layout it reports (0 means unset),
    * their mono mix, and the resampler's 8 kHz output, `None` when no resampler could be made. */
  datatype Read = Read(channels: nat, rate: nat, data: seq<Sample>, mixed: seq<Sample>, to8k: Option<seq<Sample>>,
                       delivered: bool, delivered2: bool)

  function Channels(r: Read): nat { if r.channels == 0 then 1 else r.channels }

  /** The 8 kHz samples this read contributes, mono or interleaved stereo; `None` when it is skipped. */
  function Usable(separate: bool, r: Read): Option<seq<Sample>> {
    if separate && Channels(r) != 2 then None
    else
      var pcm := if !separate && Channels(r) > 1 then r.mixed else r.data;
      if r.rate == 0 || r.rate == G711_RATE then Some(pcm) else r.to8k
  }

  /** Payload type 8 is PCMA; anything else is encoded as PCMU. */
  function Encode(g: G711, pt: Byte, s: Sample): Byte { if pt == 8 then g.alaw(s) else g.ulaw(s) }

  function Min(a: nat, b: nat): nat { if a <= b then a else b }

  /** Channel `lane` of `lanes` interleaved channels, cut to what one packet carries. */
  function Lane(pcm: seq<Sample>, lane: nat, lanes: nat): (s: seq<Sample>)
    requires 0 <= lane < lanes
    ensures |s| == Min(|pcm| / lanes, MAX_PAYLOAD)
  {
    seq(Min(|pcm| / lanes, MAX_PAYLOAD), i requires 0 <= i < Min(|pcm| / lanes, MAX_PAYLOAD) =>
      (assert i * lanes + lane < |pcm| by { LaneInside(|pcm|, lane, lanes, i); } pcm[i * lanes + lane]))
  }

  lemma LaneInside(n: nat, lane: nat, lanes: nat, i: nat)
    requires lane < lanes && i < n / lanes
    ensures i * lanes + lane < n
  {
    assert (i + 1) * lanes <= (n / lanes) * lanes <= n;
  }

  function Encoded(g: G711, pt: Byte, samples: seq<Sample>): (e: seq<Byte>)
    ensures |e| == |samples|
  {
    seq(|samples|, i requires 0 <= i < |samples| => Encode(g, pt, samples[i]))
  }

  function PacketOf(s: Stream, payload: seq<Byte>): Packet {
    Packet(s.markerPending, s.pt % 128, s.sequence, s.timestamp, s.ssrc, payload)
  }

  /** The stream after one attempted packet of `n` samples: the sequence number is used up even when sendto fails. */
  function Advanced(s: Stream, n: nat, ok: bool): Stream {
    s.(sequence := (s.sequence + 1) % M16, timestamp := (s.timestamp + n) % M32, markerPending := false,
       packetsSent := s.packetsSent + if ok then 1 else 0, sendErrors := s.sendErrors + if ok then 0 else 1)
  }

  /** send_stream. */
  function Send(f: Fork, i: nat, payload: seq<Byte>, ok: bool): Fork
    requires i < |f.streams|
  {
    f.(streams := f.streams[i := Advanced(f.streams[i], |payload|, ok)],
       log := f.log + [Sent(i, PacketOf(f.streams[i], payload), ok)])
  }

  /** One usable read: the mix on stream 0, or one channel on each stream. */
  function SendAll(g: G711, f: Fork, pcm: seq<Sample>, r: Read): Fork
    requires |f.streams| == if f.separate then 2 else 1
  {
    if f.separate then
      var f0 := Send(f, 0, Encoded(g, f.streams[0].pt, Lane(pcm, 0, 2)), r.delivered);
      Send(f0, 1, Encoded(g, f.streams[1].pt, Lane(pcm, 1, 2)), r.delivered2)
    else Send(f, 0, Encoded(g, f.streams[0].pt, Lane(pcm, 0, 1)), r.delivered)
  }

  ghost predicate Wired(f: Fork) { |f.streams| == if f.separate then 2 else 1 }

  /** The reads of one tick, in order. */
  function SendReads(g: G711, f: Fork, frames: seq<Read>): (f': Fork)
    requires Wired(f)
    ensures Wired(f') && f'.separate == f.separate && f'.bug == f.bug && f'.paused == f.paused
    ensures f'.pausedAt == f.pausedAt && f'.legEnded == f.legEnded
  {
    if frames == [] then f
    else
      var f' := SendReads(g, f, frames[..|frames| - 1]);
      var r := frames[|frames| - 1];
      match Usable(f.separate, r)
      case None => f'
      case Some(pcm) => SendAll(g, f', pcm, r)
  }

  predicate AnyUsable(separate: bool, frames: seq<Read>) { exists i :: 0 <= i < |frames| && Usable(separate, frames[i]).Some? }

  function Skipped(s: Stream, n: nat): Stream { s.(timestamp := (s.timestamp + n) % M32, markerPending := true) }

  /** The RTP clock runs on without a packet: the next one opens a talkspurt. */
  function SkipAll(streams: seq<Stream>, n: nat): (skipped: seq<Stream>)
    ensures |skipped| == |streams|
  {
    seq(|streams|, i requires 0 <= i < |streams| => Skipped(streams[i], n))
  }

  /** The clock advance of a silent tick: the leg's packet time, 20 ms when unknown. */
  function TickOf(microseconds: int): Word32 {
    if microseconds > 0 then microseconds / MICROS_PER_SAMPLE % M32 else 160
  }

  /** SWITCH_ABC_TYPE_READ_PING on a live leg. */
  function Tick(g: G711, f: Fork, frames: seq<Read>, microseconds: int): (f': Fork)
    requires Wired(f)
    ensures Wired(f') && f'.separate == f.separate
  {
    if AnyUsable(f.separate, frames) then SendReads(g, f, frames)
    else f.(streams := SkipAll(f.streams, TickOf(microseconds)), log := f.log + [Silent(TickOf(microseconds))])
  }

  /** The quotient C computes: truncated toward zero. */
  function Quotient(a: int, b: int): int
    requires b > 0
  {
    if a >= 0 then a / b else -(-a / b)
  }

  function GapOf(pausedAt: int, now: int): Word32 {
    if pausedAt == 0 then 0 else Quotient(now - pausedAt, MICROS_PER_SAMPLE) % M32
  }

  /** siprec_media_set_paused: nothing happens once the bug is gone. */
  function SetPaused(f: Fork, paused: bool, now: int): (f': Fork)
    ensures Wired(f) ==> Wired(f')
  {
    if !f.bug then f
    else if paused then f.(paused := true, pausedAt := if f.pausedAt == 0 then now else f.pausedAt)
    else
      var gap := GapOf(f.pausedAt, now);
      f.(paused := false, pausedAt := 0, streams := SkipAll(f.streams, gap), log := f.log + [Resumed(gap)])
  }

  /** The media context as siprec_media_attach leaves it and the callback updates it. */
  class MediaCtx {
    const g: G711
    var separate: bool
    var streams: array<Stream>
    var streamCount: nat
    var bug: bool
    var paused: bool
    var pausedAt: int
    var legEnded: bool
    ghost var log: seq<Event>

    ghost predicate Valid()
      reads this
    {
      streams.Length == 2 && (streamCount == if separate then 2 else 1)
    }

    ghost function State(): (f: Fork)
      reads this, streams
      requires Valid()
      ensures Wired(f)
    {
      Fork(separate, streams[..streamCount], bug, paused, pausedAt, legEnded, log)
    }

    /** The fork starts with every stream's marker pending and random sequence, timestamp and SSRC. */
    constructor (g: G711, separate: bool, pts: seq<Byte>, ssrcs: seq<Word32>, sequences: seq<Word16>, stamps: seq<Word32>)
      requires |pts| == |ssrcs| == |sequences| == |stamps| == 2
      ensures Valid() && fresh(streams) && this.g == g
      ensures State() == Fork(separate, State().streams, true, false, 0, false, [])
      ensures forall i :: 0 <= i < streamCount ==>
        State().streams[i] == Stream(pts[i], ssrcs[i], sequences[i], stamps[i], true, 0, 0)
    {
      this.g := g;
      this.separate := separate;
      this.streamCount := if separate then 2 else 1;
      this.streams := new Stream[2](i requires 0 <= i < 2 => Stream(pts[i], ssrcs[i], sequences[i], stamps[i], true, 0, 0));
      this.bug, this.paused, this.pausedAt, this.legEnded, this.log := true, false, 0, false, [];
    }

    /** The encoding loop of send_stream: every `stride`-th sample starting at `offset`. */
    method EncodeLane(pt: Byte, pcm: seq<Sample>, offset: nat, stride: nat) returns (encoded: array<Byte>)
      requires offset < stride
      ensures fresh(encoded) && encoded[..] == Encoded(g, pt, Lane(pcm, offset, stride))
    {
      var n := |pcm| / stride;
      if n > MAX_PAYLOAD { n := MAX_PAYLOAD; }
      encoded := new Byte[n];
      ghost var lane := Lane(pcm, offset, stride);
      for k := 0 to n
        invariant forall j :: 0 <= j < k ==> encoded[j] == Encode(g, pt, lane[j])
      {
        LaneInside(|pcm|, offset, stride, k);
        encoded[k] := Encode(g, pt, pcm[k * stride + offset]);
      }
    }

    /** send_stream: `ok` is what sendto answers. */
    method SendStream(i: nat, pcm: seq<Sample>, offset: nat, stride: nat, ok: bool)
      requires Valid() && i < streamCount && offset < stride
      modifies this`log, streams
      ensures Valid() && State() == Send(old(State()), i, Encoded(g, old(streams[i].pt), Lane(pcm, offset, stride)), ok)
    {
      var encoded := EncodeLane(streams[i].pt, pcm, offset, stride);
      Transmit(i, encoded[..], ok);
    }

    method Transmit(i: nat, payload: seq<Byte>, ok: bool)
      requires Valid() && i < streamCount && |payload| <= MAX_PAYLOAD
      modifies this`log, streams
      ensures Valid() && State() == Send(old(State()), i, payload, ok)
    {
      var s := streams[i];
      var pkt := Pack(s.pt, s.markerPending, s.ssrc, s.sequence, s.timestamp, payload);
      assert Parse(pkt.value) == Some(PacketOf(s, payload));
      log := log + [Sent(i, PacketOf(s, payload), ok)];
      s := s.(sequence := (s.sequence + 1) % M16);
      if ok { s := s.(packetsSent := s.packetsSent + 1); } else { s := s.(sendErrors := s.sendErrors + 1); }
      streams[i] := s.(markerPending := false, timestamp := (s.timestamp + |payload|) % M32);
    }

    /** One pass of the callback's loop: false when the read is skipped. */
    method SendRead(r: Read) returns (sent: bool)
      requires Valid()
      modifies this`log, streams
      ensures Valid() && sent == Usable(separate, r).Some?
      ensures State() == if sent then SendAll(g, old(State()), Usable(separate, r).value, r) else old(State())
    {
      if separate && Channels(r) != 2 { return false; }
      var samples := if !separate && Channels(r) > 1 then r.mixed else r.data;
      if r.rate != 0 && r.rate != G711_RATE {
        if r.to8k.None? { return false; }
        samples := r.to8k.value;
      }
      if separate {
        SendStream(0, samples, 0, 2, r.delivered);
        SendStream(1, samples, 1, 2, r.delivered2);
      } else {
        SendStream(0, samples, 0, 1, r.delivered);
      }
      sent := true;
    }

    /** SWITCH_ABC_TYPE_READ_PING; false tells the core to remove the bug. */
    method ReadPing(legGone: bool, frames: seq<Read>, microseconds: int) returns (keep: bool)
      requires Valid()
      modifies this`log, this`legEnded, streams
      ensures Valid() && keep == !legGone
      ensures State() == if legGone then old(State()).(legEnded := true) else Tick(g, old(State()), frames, microseconds)
    {
      if legGone {
        legEnded := true;
        return false;
      }
      ghost var was := State();
      var sentAny := false;
      var i := 0;
      while i < |frames|
        invariant 0 <= i <= |frames| && Valid()
        invariant State() == SendReads(g, was, frames[..i])
        invariant sentAny == AnyUsable(separate, frames[..i])
        invariant !sentAny ==> State() == was
      {
        var r := frames[i];
        assert frames[..i + 1][..i] == frames[..i] && frames[..i + 1][i] == r;
        i := i + 1;
        var sent := SendRead(r);
        if sent { sentAny := true; }
      }
      assert frames[..i] == frames;
      if !sentAny {
        var tick := if microseconds > 0 then microseconds / MICROS_PER_SAMPLE % M32 else 160;
        SkipStreams(tick);
        log := log + [Silent(tick)];
      }
      keep := true;
    }

    /** Advance every stream's clock and mark its next packet. */
    method SkipStreams(n: nat)
      requires Valid()
      modifies streams
      ensures Valid() && State() == old(State()).(streams := SkipAll(old(State()).streams, n))
    {
      ghost var was := streams[..];
      for s := 0 to streamCount
        invariant streams[s..] == was[s..]
        invariant forall j :: 0 <= j < s ==> streams[j] == Skipped(was[j], n)
      {
        streams[s] := streams[s].(timestamp := (streams[s].timestamp + n) % M32, markerPending := true);
      }
      assert streams[..streamCount] == SkipAll(was[..streamCount], n);
    }

    /** siprec_media_set_paused; `now` is the microsecond clock. */
    method SetPausedAt(pause: bool, now: int)
      requires Valid()
      modifies this`paused, this`pausedAt, this`log, streams
      ensures Valid() && State() == SetPaused(old(State()), pause, now)
    {
      if !bug { return; }
      if pause {
        paused := true;
        if pausedAt == 0 { pausedAt := now; }
      } else {
        var gap: Word32 := 0;
        if pausedAt != 0 {
          gap := Quotient(now - pausedAt, MICROS_PER_SAMPLE) % M32;
          pausedAt := 0;
        }
        SkipStreams(gap);
        log := log + [Resumed(gap)];
        paused := false;
      }
    }
  }
}
