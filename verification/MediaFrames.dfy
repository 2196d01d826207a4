/** The two streams of a separate fork, put together again: what the recording server can rebuild from them is the audio
  * as it was read. */
module MediaFrames {
  import opened Common
  import opened RtpPacket
  import opened MediaFork
  import opened MediaTimeline

  /** Two lanes of one length, sample by sample. */
  function Interleave<T>(left: seq<T>, right: seq<T>): (s: seq<T>)
    requires |left| == |right|
  {
    seq(2 * |left|, k requires 0 <= k < 2 * |left| => if k % 2 == 0 then left[k / 2] else right[k / 2])
  }

  /** The whole stereo samples of a frame that a pair of packets carries. */
  function Carried(pcm: seq<Sample>): seq<Sample> { pcm[..2 * Min(|pcm| / 2, MAX_PAYLOAD)] }

  /** An interleaved frame, encoded for the left and the right stream's payload types. */
  function EncodedFrame(g: G711, left: Byte, right: Byte, pcm: seq<Sample>): seq<Byte> {
    seq(|pcm|, k requires 0 <= k < |pcm| => Encode(g, if k % 2 == 0 then left else right, pcm[k]))
  }

  /** Splitting a frame into its lanes loses nothing of what they carry. */
  lemma LanesRejoin(pcm: seq<Sample>)
    ensures |Lane(pcm, 0, 2)| == |Lane(pcm, 1, 2)|
    ensures Interleave(Lane(pcm, 0, 2), Lane(pcm, 1, 2)) == Carried(pcm)
  {
    var left, right := Lane(pcm, 0, 2), Lane(pcm, 1, 2);
    forall k | 0 <= k < |Carried(pcm)| ensures Interleave(left, right)[k] == pcm[k] {
      assert k == 2 * (k / 2) + k % 2;
      assert left[k / 2] == pcm[k / 2 * 2 + 0] && right[k / 2] == pcm[k / 2 * 2 + 1];
    }
  }

  /** Nor does encoding them one by one. */
  lemma EncodedLanesRejoin(g: G711, left: Byte, right: Byte, pcm: seq<Sample>)
    ensures |Encoded(g, left, Lane(pcm, 0, 2))| == |Encoded(g, right, Lane(pcm, 1, 2))|
    ensures Interleave(Encoded(g, left, Lane(pcm, 0, 2)), Encoded(g, right, Lane(pcm, 1, 2)))
         == EncodedFrame(g, left, right, Carried(pcm))
  {
    var l, r := Lane(pcm, 0, 2), Lane(pcm, 1, 2);
    LanesRejoin(pcm);
    var whole, parts := EncodedFrame(g, left, right, Carried(pcm)), Interleave(Encoded(g, left, l), Encoded(g, right, r));
    forall k | 0 <= k < |whole| ensures parts[k] == whole[k] {
      assert Interleave(l, r)[k] == Carried(pcm)[k];
    }
  }

  // ---- over a run ----

  /** The usable reads of one tick, as 8 kHz samples. */
  function FramesOf(separate: bool, frames: seq<Read>): seq<seq<Sample>> {
    if frames == [] then []
    else
      FramesOf(separate, frames[..|frames| - 1])
      + match Usable(separate, frames[|frames| - 1]) case None => [] case Some(pcm) => [pcm]
  }

  /** Those of the ticks a run delivered while the fork was not paused. */
  function Delivered(g: G711, start: Fork, ops: seq<Op>): seq<seq<Sample>>
    requires Wired(start)
  {
    if ops == [] then []
    else
      var f, op := Run(g, start, ops[..|ops| - 1]), ops[|ops| - 1];
      Delivered(g, start, ops[..|ops| - 1])
      + if op.Ticked? && f.bug && !f.paused then FramesOf(start.separate, op.frames) else []
  }

  /** What stream `i` of two is to carry of some frames. */
  ghost predicate CarriesLanes(g: G711, pt: Byte, payloads: seq<seq<Byte>>, frames: seq<seq<Sample>>, i: nat)
    requires i < 2
  {
    |payloads| == |frames| && forall m :: 0 <= m < |frames| ==> payloads[m] == Encoded(g, pt, Lane(frames[m], i, 2))
  }

  lemma CarriesBoth(g: G711, pt: Byte, p: seq<seq<Byte>>, q: seq<seq<Byte>>, f: seq<seq<Sample>>, h: seq<seq<Sample>>, i: nat)
    requires i < 2 && CarriesLanes(g, pt, p, f, i) && CarriesLanes(g, pt, q, h, i)
    ensures CarriesLanes(g, pt, p + q, f + h, i)
  {
  }

  lemma {:induction false} TickOwesLanes(g: G711, pt: Byte, frames: seq<Read>, i: nat)
    requires i < 2
    ensures CarriesLanes(g, pt, Owed(g, true, pt, frames, i), FramesOf(true, frames), i)
  {
    if frames != [] {
      var init := frames[..|frames| - 1];
      TickOwesLanes(g, pt, init, i);
      var u := Usable(true, frames[|frames| - 1]);
      if u.Some? {
        CarriesBoth(g, pt, Owed(g, true, pt, init, i), [Encoded(g, pt, Lane(u.value, i, 2))], FramesOf(true, init), [u.value], i);
      }
    }
  }

  lemma {:induction false} RunOwesLanes(g: G711, start: Fork, ops: seq<Op>, i: nat)
    requires Wired(start) && start.separate && i < 2
    ensures CarriesLanes(g, start.streams[i].pt, OwedBy(g, start, ops, i), Delivered(g, start, ops), i)
  {
    if ops != [] {
      var init, op, pt := ops[..|ops| - 1], ops[|ops| - 1], start.streams[i].pt;
      RunOwesLanes(g, start, init, i);
      var f := Run(g, start, init);
      if op.Ticked? && f.bug && !f.paused {
        TickOwesLanes(g, pt, op.frames, i);
        CarriesBoth(g, pt, OwedBy(g, start, init, i), Owed(g, true, pt, op.frames, i),
                    Delivered(g, start, init), FramesOf(true, op.frames), i);
      }
    }
  }

  lemma {:induction false} PayloadAt(log: seq<Event>, i: nat, j: nat)
    requires j < |log| && IsSent(log[j], i)
    ensures |Payloads(log, i)| == SentBefore(log, i) && SentBefore(log[..j], i) < SentBefore(log, i)
    ensures Payloads(log, i)[SentBefore(log[..j], i)] == log[j].packet.payload
  {
    var init := log[..|log| - 1];
    AsManyAsSent(log, i);
    AsManyAsSent(init, i);
    if j < |init| { assert init[..j] == log[..j]; PayloadAt(init, i, j); }
  }

  lemma {:induction false} AsManyAsSent(log: seq<Event>, i: nat)
    ensures |Payloads(log, i)| == SentBefore(log, i)
  {
    if log != [] { AsManyAsSent(log[..|log| - 1], i); }
  }

  /** Over any run of a separate fork the streams have sent one packet each per usable read of the ticks delivered; the
    * m-th two, interleaved, are the m-th read as it was, encoded, up to its first 1500 stereo samples. */
  lemma StreamsRejoin(g: G711, start: Fork, ops: seq<Op>, m: nat)
    requires Fresh(start) && start.separate && m < |Delivered(g, start, ops)|
    ensures var log, frames := Run(g, start, ops).log, Delivered(g, start, ops);
      && |Payloads(log, 0)| == |Payloads(log, 1)| == |frames|
      && |Payloads(log, 0)[m]| == |Payloads(log, 1)[m]|
      && Interleave(Payloads(log, 0)[m], Payloads(log, 1)[m])
         == EncodedFrame(g, start.streams[0].pt, start.streams[1].pt, Carried(frames[m]))
  {
    PayloadsAreTheAudio(g, start, ops, 0);
    PayloadsAreTheAudio(g, start, ops, 1);
    RunOwesLanes(g, start, ops, 0);
    RunOwesLanes(g, start, ops, 1);
    EncodedLanesRejoin(g, start.streams[0].pt, start.streams[1].pt, Delivered(g, start, ops)[m]);
  }

  /** On the wire: each packet of the left stream and the one after it, which is the right stream's, interleave to the read
    * they were cut from. */
  lemma PacketPairsRejoin(g: G711, start: Fork, ops: seq<Op>, j: nat) returns (m: nat)
    requires Fresh(start) && start.separate && j < |Run(g, start, ops).log| && IsSent(Run(g, start, ops).log[j], 0)
    ensures var log, frames := Run(g, start, ops).log, Delivered(g, start, ops);
      && m == SentBefore(log[..j], 0) < |frames| && j + 1 < |log| && IsSent(log[j + 1], 1)
      && |log[j].packet.payload| == |log[j + 1].packet.payload|
      && Interleave(log[j].packet.payload, log[j + 1].packet.payload)
         == EncodedFrame(g, start.streams[0].pt, start.streams[1].pt, Carried(frames[m]))
  {
    var log := Run(g, start, ops).log;
    m := SentBefore(log[..j], 0);
    RunPaired(g, start, ops);
    PairSeesTheSame(log, j);
    PayloadAt(log, 0, j);
    PayloadAt(log, 1, j + 1);
    PayloadsAreTheAudio(g, start, ops, 0);
    RunOwesLanes(g, start, ops, 0);
    StreamsRejoin(g, start, ops, m);
  }
}
