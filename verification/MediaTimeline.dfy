/** What the SRS sees over a whole fork: packet numbering, the RTP clock, talkspurts, and two streams in step. */
module MediaTimeline {
  import opened Common
  import opened RtpPacket
  import opened MediaFork

  /** What happens to a fork: a media tick, a tick that finds the leg gone, a pause or resume at a time, the core
    * removing the bug. */
  datatype Op = Ticked(frames: seq<Read>, microseconds: int) | LegGone | Direction(pause: bool, now: int) | Closed

  /** The core calls the callback only while the bug is on the call and not paused. */
  function Apply(g: G711, f: Fork, op: Op): (f': Fork)
    requires Wired(f)
    ensures Wired(f') && f'.separate == f.separate
  {
    match op
    case Ticked(frames, us) => if f.bug && !f.paused then Tick(g, f, frames, us) else f
    case LegGone => if f.bug && !f.paused then f.(legEnded := true, bug := false) else f
    case Direction(pause, now) => SetPaused(f, pause, now)
    case Closed => f.(bug := false)
  }

  function Run(g: G711, start: Fork, ops: seq<Op>): (f: Fork)
    requires Wired(start)
    ensures Wired(f) && f.separate == start.separate
  {
    if ops == [] then start else Apply(g, Run(g, start, ops[..|ops| - 1]), ops[|ops| - 1])
  }

  /** A fork just attached. */
  ghost predicate Fresh(f: Fork) {
    Wired(f) && f.log == [] && !f.paused && f.pausedAt == 0
    && forall i :: 0 <= i < |f.streams| ==> f.streams[i].markerPending
  }

  // ---- the log's own account of a stream ----

  predicate IsSent(e: Event, i: nat) { e.Sent? && e.stream == i }

  predicate IsBreak(e: Event) { e.Silent? || e.Resumed? }

  /** How far one event moves stream `i`'s clock: the samples sent, the silence, the pause. */
  function Samples(e: Event, i: nat): nat {
    match e
    case Sent(j, p, _) => if j == i then |p.payload| else 0
    case Silent(tick) => tick
    case Resumed(gap) => gap
  }

  function Elapsed(log: seq<Event>, i: nat): nat {
    if log == [] then 0 else Elapsed(log[..|log| - 1], i) + Samples(log[|log| - 1], i)
  }

  function SentBefore(log: seq<Event>, i: nat): nat {
    if log == [] then 0 else SentBefore(log[..|log| - 1], i) + if IsSent(log[|log| - 1], i) then 1 else 0
  }

  /** Position `j` opens a talkspurt of stream `i`: every packet before it is followed by silence or a resume. */
  ghost predicate Opens(log: seq<Event>, i: nat, j: nat)
    requires j <= |log|
  {
    forall k :: 0 <= k < j && IsSent(log[k], i) ==> BreakWithin(log, k, j)
  }

  ghost predicate BreakWithin(log: seq<Event>, k: nat, j: nat)
    requires j <= |log|
  {
    exists m :: k < m < j && IsBreak(log[m])
  }

  /** The packet at position `j` is numbered, stamped and marked as the log up to there says. */
  ghost predicate Stamped(start: Fork, log: seq<Event>, j: nat)
    requires j < |log|
  {
    log[j].Sent? ==>
      && log[j].stream < |start.streams| && |log[j].packet.payload| <= MAX_PAYLOAD
      && var s := start.streams[log[j].stream];
         log[j].packet == Packet(Opens(log, log[j].stream, j), s.pt % 128,
                                 (s.sequence + SentBefore(log[..j], log[j].stream)) % M16,
                                 (s.timestamp + Elapsed(log[..j], log[j].stream)) % M32, s.ssrc, log[j].packet.payload)
  }

  /** Stream `i` stands where the whole log says. */
  ghost predicate Stands(start: Fork, f: Fork, i: nat)
    requires i < |f.streams| == |start.streams|
  {
    var s, s0 := f.streams[i], start.streams[i];
    && s.pt == s0.pt && s.ssrc == s0.ssrc
    && s.sequence == (s0.sequence + SentBefore(f.log, i)) % M16
    && s.timestamp == (s0.timestamp + Elapsed(f.log, i)) % M32
    && (s.markerPending <==> Opens(f.log, i, |f.log|))
  }

  ghost predicate Kept(start: Fork, f: Fork) {
    && Wired(start) && Wired(f) && f.separate == start.separate && |f.streams| == |start.streams|
    && (forall i :: 0 <= i < |f.streams| ==> Stands(start, f, i))
    && (forall j :: 0 <= j < |f.log| ==> Stamped(start, f.log, j))
  }

  lemma Snoc(log: seq<Event>, e: Event, i: nat)
    ensures Elapsed(log + [e], i) == Elapsed(log, i) + Samples(e, i)
    ensures SentBefore(log + [e], i) == SentBefore(log, i) + if IsSent(e, i) then 1 else 0
  {
    assert (log + [e])[..|log|] == log;
  }

  /** More log does not change what the earlier part says. */
  lemma StampedStays(start: Fork, log: seq<Event>, e: Event, j: nat)
    requires j < |log| && Stamped(start, log, j)
    ensures Stamped(start, log + [e], j)
  {
    var more := log + [e];
    assert more[..j] == log[..j];
    if log[j].Sent? { OpensStays(log, e, log[j].stream, j); }
  }

  lemma OpensStays(log: seq<Event>, e: Event, i: nat, j: nat)
    requires j <= |log|
    ensures Opens(log + [e], i, j) <==> Opens(log, i, j)
  {
    var more := log + [e];
    forall k | 0 <= k < j ensures BreakWithin(more, k, j) <==> BreakWithin(log, k, j) {
      if m :| k < m < j && IsBreak(log[m]) { assert IsBreak(more[m]); }
      if m :| k < m < j && IsBreak(more[m]) { assert IsBreak(log[m]); }
    }
    assert forall k :: 0 <= k < j ==> more[k] == log[k];
  }

  /** A talkspurt is open after `e`: it was open and `e` is no packet of the stream, or `e` is a break. */
  lemma OpensSnoc(log: seq<Event>, e: Event, i: nat)
    ensures Opens(log + [e], i, |log| + 1) <==> IsBreak(e) || (Opens(log, i, |log|) && !IsSent(e, i))
  {
    var more := log + [e];
    OpensStays(log, e, i, |log|);
    if IsBreak(e) {
      forall k | 0 <= k < |more| && IsSent(more[k], i) ensures BreakWithin(more, k, |more|) { assert IsBreak(more[|log|]); }
    } else if IsSent(e, i) {
      assert IsSent(more[|log|], i) && !BreakWithin(more, |log|, |more|);
    } else {
      forall k | 0 <= k < |log| ensures BreakWithin(more, k, |more|) <==> BreakWithin(more, k, |log|) {
        if m :| k < m < |more| && IsBreak(more[m]) { assert m < |log|; }
      }
      assert Opens(more, i, |log|) <==> Opens(more, i, |more|);
    }
  }

  lemma SendKept(start: Fork, f: Fork, i: nat, payload: seq<Byte>, ok: bool)
    requires Kept(start, f) && i < |f.streams| && |payload| <= MAX_PAYLOAD
    ensures Kept(start, Send(f, i, payload, ok))
  {
    var f' := Send(f, i, payload, ok);
    var e := f'.log[|f.log|];
    forall k | 0 <= k < |f'.streams| ensures Stands(start, f', k) { SendStands(start, f, i, payload, ok, k); }
    forall j | 0 <= j < |f'.log| ensures Stamped(start, f'.log, j) {
      if j < |f.log| { StampedStays(start, f.log, e, j); }
      else {
        assert Stands(start, f, i);
        assert f'.log[..j] == f.log;
        OpensStays(f.log, e, i, j);
      }
    }
  }

  lemma SendStands(start: Fork, f: Fork, i: nat, payload: seq<Byte>, ok: bool, k: nat)
    requires k < |f.streams| == |start.streams| && i < |f.streams| && Stands(start, f, k)
    ensures Stands(start, Send(f, i, payload, ok), k)
  {
    var e := Sent(i, PacketOf(f.streams[i], payload), ok);
    Snoc(f.log, e, k);
    OpensSnoc(f.log, e, k);
    NextInWidth(start.streams[k].sequence + SentBefore(f.log, k), 1,
                start.streams[k].timestamp + Elapsed(f.log, k), |payload|);
  }

  lemma SkipKept(start: Fork, f: Fork, f': Fork, e: Event)
    requires Kept(start, f) && IsBreak(e)
    requires f'.separate == f.separate && f'.log == f.log + [e] && f'.streams == SkipAll(f.streams, Samples(e, 0))
    ensures Kept(start, f')
  {
    forall k | 0 <= k < |f'.streams| ensures Stands(start, f', k) {
      assert Stands(start, f, k);
      Snoc(f.log, e, k);
      OpensSnoc(f.log, e, k);
      NextInWidth(0, 0, start.streams[k].timestamp + Elapsed(f.log, k), Samples(e, k));
    }
    forall j | 0 <= j < |f'.log| ensures Stamped(start, f'.log, j) {
      if j < |f.log| { StampedStays(start, f.log, e, j); }
    }
  }

  lemma SendAllKept(g: G711, start: Fork, f: Fork, pcm: seq<Sample>, r: Read)
    requires Kept(start, f)
    ensures Kept(start, SendAll(g, f, pcm, r))
  {
    if f.separate {
      var left := Encoded(g, f.streams[0].pt, Lane(pcm, 0, 2));
      SendKept(start, f, 0, left, r.delivered);
      SendKept(start, Send(f, 0, left, r.delivered), 1, Encoded(g, f.streams[1].pt, Lane(pcm, 1, 2)), r.delivered2);
    } else {
      SendKept(start, f, 0, Encoded(g, f.streams[0].pt, Lane(pcm, 0, 1)), r.delivered);
    }
  }

  lemma {:induction false} SendReadsKept(g: G711, start: Fork, f: Fork, frames: seq<Read>)
    requires Kept(start, f)
    ensures Kept(start, SendReads(g, f, frames))
  {
    if frames != [] {
      var init, r := frames[..|frames| - 1], frames[|frames| - 1];
      SendReadsKept(g, start, f, init);
      if Usable(f.separate, r).Some? { SendAllKept(g, start, SendReads(g, f, init), Usable(f.separate, r).value, r); }
    }
  }

  lemma ApplyKept(g: G711, start: Fork, f: Fork, op: Op)
    requires Kept(start, f)
    ensures Kept(start, Apply(g, f, op))
  {
    var f' := Apply(g, f, op);
    if f'.log == f.log && f'.streams == f.streams { SameKept(start, f, f'); }
    else if op.Ticked? {
      if AnyUsable(f.separate, op.frames) { SendReadsKept(g, start, f, op.frames); }
      else { SkipKept(start, f, f', Silent(TickOf(op.microseconds))); }
    } else {
      SkipKept(start, f, f', Resumed(GapOf(f.pausedAt, op.now)));
    }
  }

  lemma SameKept(start: Fork, f: Fork, f': Fork)
    requires Kept(start, f) && f'.log == f.log && f'.streams == f.streams && f'.separate == f.separate
    ensures Kept(start, f')
  {
    forall k | 0 <= k < |f'.streams| ensures Stands(start, f', k) { assert Stands(start, f, k); }
  }

  lemma {:induction false} RunKept(g: G711, start: Fork, ops: seq<Op>)
    requires Fresh(start)
    ensures Kept(start, Run(g, start, ops))
  {
    if ops == [] {
      forall i | 0 <= i < |start.streams| ensures Stands(start, start, i) { }
    } else {
      RunKept(g, start, ops[..|ops| - 1]);
      ApplyKept(g, start, Run(g, start, ops[..|ops| - 1]), ops[|ops| - 1]);
    }
  }

  /** RTP clock accounting over any run: the j-th event, if a packet, carries the next sequence number of its
    * stream, and as timestamp the initial one plus all payload, silence and pause samples before it; its marker is
    * set exactly when it is the stream's first packet or the first after silence or a resume. */
  lemma PacketTimeline(g: G711, start: Fork, ops: seq<Op>, j: nat)
    requires Fresh(start) && j < |Run(g, start, ops).log| && Run(g, start, ops).log[j].Sent?
    ensures var log := Run(g, start, ops).log;
      var i := log[j].stream;
      && i < |start.streams|
      && log[j].packet.sequence == (start.streams[i].sequence + SentBefore(log[..j], i)) % M16
      && log[j].packet.timestamp == (start.streams[i].timestamp + Elapsed(log[..j], i)) % M32
      && (log[j].packet.marker <==> Opens(log, i, j))
      && log[j].packet.ssrc == start.streams[i].ssrc && log[j].packet.pt == start.streams[i].pt % 128
  {
    RunKept(g, start, ops);
    assert Stamped(start, Run(g, start, ops).log, j);
  }

  /** Two packets of a stream with none between them: consecutive sequence numbers; and with the marker clear the
    * second starts where the first one's samples end. */
  lemma ConsecutivePackets(g: G711, start: Fork, ops: seq<Op>, i: nat, j: nat, k: nat)
    requires Fresh(start) && j < k < |Run(g, start, ops).log|
    requires var log := Run(g, start, ops).log;
      IsSent(log[j], i) && IsSent(log[k], i) && forall m :: j < m < k ==> !IsSent(log[m], i)
    ensures var log := Run(g, start, ops).log;
      && log[k].packet.sequence == (log[j].packet.sequence + 1) % M16
      && (!log[k].packet.marker ==>
            log[k].packet.timestamp == (log[j].packet.timestamp + |log[j].packet.payload|) % M32)
  {
    RunKept(g, start, ops);
    NextIsStamped(start, Run(g, start, ops).log, i, j, k);
  }

  lemma NextIsStamped(start: Fork, log: seq<Event>, i: nat, j: nat, k: nat)
    requires j < k < |log| && Stamped(start, log, j) && Stamped(start, log, k)
    requires IsSent(log[j], i) && IsSent(log[k], i) && forall m :: j < m < k ==> !IsSent(log[m], i)
    ensures log[k].packet.sequence == (log[j].packet.sequence + 1) % M16
    ensures !log[k].packet.marker ==> log[k].packet.timestamp == (log[j].packet.timestamp + |log[j].packet.payload|) % M32
  {
    var s := start.streams[i];
    CountBetween(log, i, j, k);
    NextInWidth(s.sequence + SentBefore(log[..j], i), 1, s.timestamp + Elapsed(log[..j], i), |log[j].packet.payload|);
    if !log[k].packet.marker {
      UnmarkedHasNoBreak(log, i, j, k);
      ElapsedBetween(log, i, j, k);
    }
  }

  lemma NextInWidth(a: nat, n: nat, b: nat, k: nat)
    ensures (a + n) % M16 == (a % M16 + n) % M16
    ensures (b + k) % M32 == (b % M32 + k) % M32
  {
  }

  lemma {:induction false} CountBetween(log: seq<Event>, i: nat, j: nat, k: nat)
    requires j < k <= |log| && IsSent(log[j], i) && forall m :: j < m < k ==> !IsSent(log[m], i)
    ensures SentBefore(log[..k], i) == SentBefore(log[..j], i) + 1
  {
    assert log[..k][..k - 1] == log[..k - 1];
    if k > j + 1 { CountBetween(log, i, j, k - 1); }
  }

  lemma {:induction false} ElapsedBetween(log: seq<Event>, i: nat, j: nat, k: nat)
    requires j < k <= |log| && IsSent(log[j], i) && forall m :: j < m < k ==> !IsSent(log[m], i) && !IsBreak(log[m])
    ensures Elapsed(log[..k], i) == Elapsed(log[..j], i) + |log[j].packet.payload|
  {
    assert log[..k][..k - 1] == log[..k - 1];
    if k > j + 1 { ElapsedBetween(log, i, j, k - 1); }
  }

  lemma UnmarkedHasNoBreak(log: seq<Event>, i: nat, j: nat, k: nat)
    requires j < k < |log| && IsSent(log[j], i) && !Opens(log, i, k) && forall m :: j < m < k ==> !IsSent(log[m], i)
    ensures forall m :: j < m < k ==> !IsBreak(log[m])
  {
    var h :| 0 <= h < k && IsSent(log[h], i) && !BreakWithin(log, h, k);
    assert h <= j;
    assert forall m :: h < m < k ==> !IsBreak(log[m]);
  }

  // ---- two streams on one clock ----

  /** Every packet of stream 0 is followed at once by one of stream 1 of the same length. */
  ghost predicate Paired(log: seq<Event>) {
    log == [] ||
    (IsBreak(log[|log| - 1]) && Paired(log[..|log| - 1])) ||
    (|log| >= 2 && IsSent(log[|log| - 2], 0) && IsSent(log[|log| - 1], 1)
     && |log[|log| - 2].packet.payload| == |log[|log| - 1].packet.payload| && Paired(log[..|log| - 2]))
  }

  lemma PairedPair(log: seq<Event>, e: Event, e': Event)
    requires Paired(log) && IsSent(e, 0) && IsSent(e', 1) && |e.packet.payload| == |e'.packet.payload|
    ensures Paired(log + [e] + [e'])
  {
    assert (log + [e] + [e'])[..|log|] == log;
  }

  lemma PairedBreak(log: seq<Event>, e: Event)
    requires Paired(log) && IsBreak(e)
    ensures Paired(log + [e])
  {
    assert (log + [e])[..|log|] == log;
  }

  lemma {:induction false} ReadsPaired(g: G711, f: Fork, frames: seq<Read>)
    requires Wired(f) && f.separate && Paired(f.log)
    ensures Paired(SendReads(g, f, frames).log)
  {
    if frames != [] {
      var init, r := frames[..|frames| - 1], frames[|frames| - 1];
      ReadsPaired(g, f, init);
      var f' := SendReads(g, f, init);
      if Usable(f.separate, r).Some? {
        var f'' := SendAll(g, f', Usable(f.separate, r).value, r);
        var e, e' := f''.log[|f'.log|], f''.log[|f'.log| + 1];
        assert f''.log == f'.log + [e] + [e'];
        PairedPair(f'.log, e, e');
      }
    }
  }

  lemma {:induction false} RunPaired(g: G711, start: Fork, ops: seq<Op>)
    requires Fresh(start) && start.separate
    ensures Paired(Run(g, start, ops).log)
  {
    if ops != [] {
      var f, op := Run(g, start, ops[..|ops| - 1]), ops[|ops| - 1];
      RunPaired(g, start, ops[..|ops| - 1]);
      var f' := Apply(g, f, op);
      if op.Ticked? && f.bug && !f.paused && AnyUsable(f.separate, op.frames) { ReadsPaired(g, f, op.frames); }
      else if f'.log != f.log { PairedBreak(f.log, f'.log[|f.log|]); assert f'.log == f.log + [f'.log[|f.log|]]; }
    }
  }

  /** The log says the same of both streams. */
  ghost predicate Agrees(log: seq<Event>) {
    && Elapsed(log, 0) == Elapsed(log, 1) && SentBefore(log, 0) == SentBefore(log, 1)
    && (Opens(log, 0, |log|) <==> Opens(log, 1, |log|))
  }

  lemma BreakAgrees(log: seq<Event>, e: Event)
    requires Agrees(log) && IsBreak(e)
    ensures Agrees(log + [e])
  {
    Snoc(log, e, 0);
    Snoc(log, e, 1);
    OpensSnoc(log, e, 0);
    OpensSnoc(log, e, 1);
  }

  lemma PairAgrees(log: seq<Event>, e: Event, e': Event)
    requires Agrees(log) && IsSent(e, 0) && IsSent(e', 1) && |e.packet.payload| == |e'.packet.payload|
    ensures Agrees(log + [e] + [e'])
  {
    Snoc(log, e, 0);
    Snoc(log, e, 1);
    Snoc(log + [e], e', 0);
    Snoc(log + [e], e', 1);
    OpensSnoc(log, e, 0);
    OpensSnoc(log + [e], e', 0);
    OpensSnoc(log + [e], e', 1);
  }

  lemma {:induction false} PairedAgrees(log: seq<Event>)
    requires Paired(log)
    ensures Agrees(log)
  {
    if log != [] {
      if IsBreak(log[|log| - 1]) && Paired(log[..|log| - 1]) {
        PairedAgrees(log[..|log| - 1]);
        BreakAgrees(log[..|log| - 1], log[|log| - 1]);
        assert log == log[..|log| - 1] + [log[|log| - 1]];
      } else {
        PairedAgrees(log[..|log| - 2]);
        PairAgrees(log[..|log| - 2], log[|log| - 2], log[|log| - 1]);
        assert log == log[..|log| - 2] + [log[|log| - 2]] + [log[|log| - 1]];
      }
    }
  }

  lemma {:induction false} PairedPrefix(log: seq<Event>, j: nat)
    requires Paired(log) && j < |log| && IsSent(log[j], 0)
    ensures j + 1 < |log| && IsSent(log[j + 1], 1) && |log[j].packet.payload| == |log[j + 1].packet.payload|
    ensures Paired(log[..j])
  {
    if IsBreak(log[|log| - 1]) && Paired(log[..|log| - 1]) {
      PairedPrefix(log[..|log| - 1], j);
      assert log[..|log| - 1][..j] == log[..j];
    } else if j < |log| - 2 {
      PairedPrefix(log[..|log| - 2], j);
      assert log[..|log| - 2][..j] == log[..j];
    }
  }

  /** How far clock or counter `b` is ahead of `a`, modulo its width. */
  ghost function Offset16(a: int, b: int): int { (b - a) % M16 }

  ghost function Offset32(a: int, b: int): int { (b - a) % M32 }

  lemma SameOffset16(a: nat, b: nat, n: nat)
    ensures Offset16((a + n) % M16, (b + n) % M16) == Offset16(a, b)
  {
  }

  lemma SameOffset32(a: nat, b: nat, n: nat)
    ensures Offset32((a + n) % M32, (b + n) % M32) == Offset32(a, b)
  {
  }

  /** In separate mode the two streams never drift: over any run their timestamps and sequence numbers keep their
    * initial distance, and between ticks their markers are equal. */
  lemma StreamsKeepStep(g: G711, start: Fork, ops: seq<Op>)
    requires Fresh(start) && start.separate
    ensures var f := Run(g, start, ops);
      && Offset32(f.streams[0].timestamp, f.streams[1].timestamp)
         == Offset32(start.streams[0].timestamp, start.streams[1].timestamp)
      && Offset16(f.streams[0].sequence, f.streams[1].sequence)
         == Offset16(start.streams[0].sequence, start.streams[1].sequence)
      && f.streams[0].markerPending == f.streams[1].markerPending
  {
    var f := Run(g, start, ops);
    RunKept(g, start, ops);
    RunPaired(g, start, ops);
    PairedAgrees(f.log);
    assert Stands(start, f, 0) && Stands(start, f, 1);
    SameOffset32(start.streams[0].timestamp, start.streams[1].timestamp, Elapsed(f.log, 0));
    SameOffset16(start.streams[0].sequence, start.streams[1].sequence, SentBefore(f.log, 0));
  }

  /** ... and on the wire: each packet of stream 0 is followed by one of stream 1 with equal marker, equal length
    * and the initial distance in timestamp and sequence number. */
  lemma PacketsKeepStep(g: G711, start: Fork, ops: seq<Op>, j: nat)
    requires Fresh(start) && start.separate && j < |Run(g, start, ops).log| && IsSent(Run(g, start, ops).log[j], 0)
    ensures var log := Run(g, start, ops).log;
      && j + 1 < |log| && IsSent(log[j + 1], 1)
      && var p, q := log[j].packet, log[j + 1].packet;
         && |p.payload| == |q.payload| && p.marker == q.marker
         && Offset32(p.timestamp, q.timestamp) == Offset32(start.streams[0].timestamp, start.streams[1].timestamp)
         && Offset16(p.sequence, q.sequence) == Offset16(start.streams[0].sequence, start.streams[1].sequence)
  {
    var log := Run(g, start, ops).log;
    RunKept(g, start, ops);
    RunPaired(g, start, ops);
    PairSeesTheSame(log, j);
    assert Stamped(start, log, j) && Stamped(start, log, j + 1);
    StampedOffsets(start, log, j);
  }

  lemma StampedOffsets(start: Fork, log: seq<Event>, j: nat)
    requires |start.streams| == 2 && j + 1 < |log| && IsSent(log[j], 0) && IsSent(log[j + 1], 1)
    requires Stamped(start, log, j) && Stamped(start, log, j + 1)
    requires Elapsed(log[..j + 1], 1) == Elapsed(log[..j], 0) && SentBefore(log[..j + 1], 1) == SentBefore(log[..j], 0)
    ensures var p, q := log[j].packet, log[j + 1].packet;
      && Offset32(p.timestamp, q.timestamp) == Offset32(start.streams[0].timestamp, start.streams[1].timestamp)
      && Offset16(p.sequence, q.sequence) == Offset16(start.streams[0].sequence, start.streams[1].sequence)
  {
    SameOffset32(start.streams[0].timestamp, start.streams[1].timestamp, Elapsed(log[..j], 0));
    SameOffset16(start.streams[0].sequence, start.streams[1].sequence, SentBefore(log[..j], 0));
  }

  /** The two packets of a pair are sent with the same account behind them. */
  lemma PairSeesTheSame(log: seq<Event>, j: nat)
    requires Paired(log) && j < |log| && IsSent(log[j], 0)
    ensures j + 1 < |log| && IsSent(log[j + 1], 1) && |log[j].packet.payload| == |log[j + 1].packet.payload|
    ensures Elapsed(log[..j + 1], 1) == Elapsed(log[..j], 0) && SentBefore(log[..j + 1], 1) == SentBefore(log[..j], 0)
    ensures Opens(log, 1, j + 1) <==> Opens(log, 0, j)
  {
    PairedPrefix(log, j);
    PairedAgrees(log[..j]);
    assert log[..j + 1] == log[..j] + [log[j]];
    Snoc(log[..j], log[j], 1);
    OpensSnoc(log[..j], log[j], 1);
    OpensUpTo(log, 0, j);
    OpensUpTo(log, 1, j + 1);
  }

  lemma OpensUpTo(log: seq<Event>, i: nat, j: nat)
    requires j <= |log|
    ensures Opens(log[..j], i, j) <==> Opens(log, i, j)
  {
    forall k | 0 <= k < j ensures BreakWithin(log[..j], k, j) <==> BreakWithin(log, k, j) {
      if m :| k < m < j && IsBreak(log[m]) { assert IsBreak(log[..j][m]); }
      if m :| k < m < j && IsBreak(log[..j][m]) { assert IsBreak(log[m]); }
    }
  }

  // ---- nothing but the call's audio, each read cut to what a packet carries ----

  function Payloads(log: seq<Event>, i: nat): seq<seq<Byte>> {
    if log == [] then []
    else Payloads(log[..|log| - 1], i) + if IsSent(log[|log| - 1], i) then [log[|log| - 1].packet.payload] else []
  }

  /** What one tick owes stream `i`: channel `i` of every usable read, encoded. */
  function Owed(g: G711, separate: bool, pt: Byte, frames: seq<Read>, i: nat): seq<seq<Byte>> {
    if frames == [] then []
    else
      Owed(g, separate, pt, frames[..|frames| - 1], i)
      + match Usable(separate, frames[|frames| - 1])
        case None => []
        case Some(pcm) => if separate && i < 2 then [Encoded(g, pt, Lane(pcm, i, 2))]
                          else if i == 0 then [Encoded(g, pt, Lane(pcm, 0, 1))] else []
  }

  /** What a run owes stream `i`: the ticks the core delivered, with the bug on the call and not paused. */
  function OwedBy(g: G711, start: Fork, ops: seq<Op>, i: nat): seq<seq<Byte>>
    requires Wired(start) && i < |start.streams|
  {
    if ops == [] then []
    else
      var f, op := Run(g, start, ops[..|ops| - 1]), ops[|ops| - 1];
      OwedBy(g, start, ops[..|ops| - 1], i)
      + if op.Ticked? && f.bug && !f.paused then Owed(g, start.separate, start.streams[i].pt, op.frames, i) else []
  }

  lemma PayloadsSnoc(log: seq<Event>, e: Event, i: nat)
    ensures Payloads(log + [e], i) == Payloads(log, i) + if IsSent(e, i) then [e.packet.payload] else []
  {
    assert (log + [e])[..|log|] == log;
  }

  ghost predicate SameCodec(f: Fork, f': Fork) {
    |f'.streams| == |f.streams| && forall k :: 0 <= k < |f.streams| ==> f'.streams[k].pt == f.streams[k].pt
  }

  lemma SendPays(f: Fork, k: nat, payload: seq<Byte>, ok: bool, i: nat)
    requires k < |f.streams|
    ensures SameCodec(f, Send(f, k, payload, ok))
    ensures Payloads(Send(f, k, payload, ok).log, i) == Payloads(f.log, i) + if i == k then [payload] else []
  {
    PayloadsSnoc(f.log, Send(f, k, payload, ok).log[|f.log|], i);
  }

  lemma SendAllPays(g: G711, f: Fork, pcm: seq<Sample>, r: Read, i: nat)
    requires Wired(f) && i < |f.streams|
    ensures var f' := SendAll(g, f, pcm, r);
      && SameCodec(f, f')
      && Payloads(f'.log, i) == Payloads(f.log, i) + [Encoded(g, f.streams[i].pt, Lane(pcm, i, |f.streams|))]
  {
    if f.separate {
      var left, right := Encoded(g, f.streams[0].pt, Lane(pcm, 0, 2)), Encoded(g, f.streams[1].pt, Lane(pcm, 1, 2));
      var f0 := Send(f, 0, left, r.delivered);
      SendPays(f, 0, left, r.delivered, i);
      SendPays(f0, 1, right, r.delivered2, i);
      assert SendAll(g, f, pcm, r) == Send(f0, 1, right, r.delivered2);
      if i == 0 { assert Payloads(f.log, i) + [left] + [] == Payloads(f.log, i) + [left]; }
    } else {
      SendPays(f, 0, Encoded(g, f.streams[0].pt, Lane(pcm, 0, 1)), r.delivered, i);
    }
  }

  lemma {:induction false} SendReadsPays(g: G711, f: Fork, frames: seq<Read>, i: nat)
    requires Wired(f) && i < |f.streams|
    ensures SameCodec(f, SendReads(g, f, frames))
    ensures Payloads(SendReads(g, f, frames).log, i) == Payloads(f.log, i) + Owed(g, f.separate, f.streams[i].pt, frames, i)
  {
    if frames != [] {
      var init, r := frames[..|frames| - 1], frames[|frames| - 1];
      SendReadsPays(g, f, init, i);
      if Usable(f.separate, r).Some? { SendAllPays(g, SendReads(g, f, init), Usable(f.separate, r).value, r, i); }
    }
  }

  lemma {:induction false} NothingUsable(g: G711, separate: bool, pt: Byte, frames: seq<Read>, i: nat)
    requires !AnyUsable(separate, frames)
    ensures Owed(g, separate, pt, frames, i) == []
  {
    if frames != [] {
      var init := frames[..|frames| - 1];
      assert forall k :: 0 <= k < |init| ==> init[k] == frames[k];
      assert Usable(separate, frames[|frames| - 1]).None?;
      NothingUsable(g, separate, pt, init, i);
    }
  }

  /** Over any run the payloads sent on stream `i` are, in order and with none missing or added, the encoded
    * `i`-th channels (the mix, in mixed mode) of the usable reads of the ticks delivered while not paused. */
  lemma {:induction false} PayloadsAreTheAudio(g: G711, start: Fork, ops: seq<Op>, i: nat)
    requires Fresh(start) && i < |start.streams|
    ensures Payloads(Run(g, start, ops).log, i) == OwedBy(g, start, ops, i)
    ensures SameCodec(start, Run(g, start, ops))
  {
    if ops != [] {
      PayloadsAreTheAudio(g, start, ops[..|ops| - 1], i);
      ApplyPays(g, Run(g, start, ops[..|ops| - 1]), ops[|ops| - 1], i);
    }
  }

  lemma ApplyPays(g: G711, f: Fork, op: Op, i: nat)
    requires Wired(f) && i < |f.streams|
    ensures SameCodec(f, Apply(g, f, op))
    ensures Payloads(Apply(g, f, op).log, i) == Payloads(f.log, i)
      + if op.Ticked? && f.bug && !f.paused then Owed(g, f.separate, f.streams[i].pt, op.frames, i) else []
  {
    var f' := Apply(g, f, op);
    if op.Ticked? && f.bug && !f.paused {
      if AnyUsable(f.separate, op.frames) { SendReadsPays(g, f, op.frames, i); }
      else {
        NothingUsable(g, f.separate, f.streams[i].pt, op.frames, i);
        PayloadsSnoc(f.log, Silent(TickOf(op.microseconds)), i);
      }
    } else if op.Direction? && f.bug && !op.pause {
      PayloadsSnoc(f.log, Resumed(GapOf(f.pausedAt, op.now)), i);
    }
  }

  /** A paused fork sends nothing and its clock stands, whatever happens short of a resume; a fork whose bug is gone
    * (a tick found the leg gone, or the core removed it) never sends again. */
  lemma {:induction false} SilentUntilResumed(g: G711, f: Fork, ops: seq<Op>)
    requires Wired(f)
    requires !f.bug || (f.paused && forall op :: op in ops && op.Direction? ==> op.pause)
    ensures var f' := Run(g, f, ops);
      f'.log == f.log && f'.streams == f.streams && (f'.bug ==> f.bug) && (f.bug ==> f'.paused)
  {
    if ops != [] {
      var init, op := ops[..|ops| - 1], ops[|ops| - 1];
      assert op in ops && forall o :: o in init ==> o in ops;
      SilentUntilResumed(g, f, init);
    }
  }

  /** The tick that finds the leg gone is the last. */
  lemma GoneAtNextTick(g: G711, f: Fork, ops: seq<Op>)
    requires Wired(f) && f.bug && !f.paused
    ensures var f' := Apply(g, f, LegGone); f'.legEnded && Run(g, f', ops).log == f.log
  {
    SilentUntilResumed(g, Apply(g, f, LegGone), ops);
  }

  // ---- pauses on the RTP clock ----

  /** A stopwatch beside the fork: running since the first pause, stopped by a resume. */
  datatype Stopwatch = Stopwatch(since: Option<int>, wall: int, samples: int, resumes: nat)

  /** One operation on the stopwatch. */
  function WatchStep(w: Stopwatch, bug: bool, op: Op): Stopwatch {
    match op
    case Direction(pause, now) =>
      if !bug then w
      else if pause then (if w.since.None? then w.(since := Some(now)) else w)
      else if w.since.None? then w
      else Stopwatch(None, w.wall + (now - w.since.value),
                     w.samples + (now - w.since.value) / MICROS_PER_SAMPLE, w.resumes + 1)
    case _ => w
  }

  function Watch(g: G711, start: Fork, ops: seq<Op>): Stopwatch
    requires Wired(start)
  {
    if ops == [] then Stopwatch(None, 0, 0, 0)
    else WatchStep(Watch(g, start, ops[..|ops| - 1]), Run(g, start, ops[..|ops| - 1]).bug, ops[|ops| - 1])
  }

  /** The microsecond clock is positive and does not run backwards. */
  ghost predicate Timely(ops: seq<Op>) {
    && (forall i :: 0 <= i < |ops| && ops[i].Direction? ==> ops[i].now > 0)
    && (forall i, j :: 0 <= i < j < |ops| && ops[i].Direction? && ops[j].Direction? ==> ops[i].now <= ops[j].now)
  }

  /** The clock advances of a fork's resumes, in order. */
  function Gaps(log: seq<Event>): seq<Word32> {
    if log == [] then [] else Gaps(log[..|log| - 1]) + if log[|log| - 1].Resumed? then [log[|log| - 1].gap] else []
  }

  function Total(gaps: seq<Word32>): nat {
    if gaps == [] then 0 else Total(gaps[..|gaps| - 1]) + gaps[|gaps| - 1]
  }

  lemma GapsSnoc(log: seq<Event>, e: Event)
    ensures Gaps(log + [e]) == Gaps(log) + if e.Resumed? then [e.gap] else []
    ensures Total(Gaps(log + [e])) == Total(Gaps(log)) + if e.Resumed? then e.gap else 0
  {
    assert (log + [e])[..|log|] == log;
    if e.Resumed? { TotalSnoc(Gaps(log), e.gap); } else { assert Gaps(log + [e]) == Gaps(log); }
  }

  lemma TotalSnoc(gaps: seq<Word32>, gap: Word32)
    ensures Total(gaps + [gap]) == Total(gaps) + gap
  {
    assert (gaps + [gap])[..|gaps|] == gaps;
  }

  /** The fork's pause state and gaps agree with the stopwatch. */
  ghost predicate Timed(f: Fork, w: Stopwatch) {
    && Total(Gaps(f.log)) % M32 == w.samples % M32
    && MICROS_PER_SAMPLE * w.samples <= w.wall <= MICROS_PER_SAMPLE * w.samples + (MICROS_PER_SAMPLE - 1) * w.resumes
    && (f.pausedAt == match w.since case None => 0 case Some(t) => t)
    && (w.since.Some? ==> w.since.value > 0)
  }

  /** The stopwatch was started by some pause of the run. */
  ghost predicate Started(ops: seq<Op>, w: Stopwatch) {
    w.since.Some? ==> exists i :: 0 <= i < |ops| && ops[i].Direction? && ops[i].now == w.since.value
  }

  /** The gaps a run adds to the RTP clock are, modulo 2^32, the whole samples of its pauses, each counted from its
    * first pause; they undercount the paused wall time by less than one 125 us sample per resume. */
  lemma {:induction false} PausesOnTheClock(g: G711, start: Fork, ops: seq<Op>)
    requires Fresh(start) && Timely(ops)
    ensures Timed(Run(g, start, ops), Watch(g, start, ops)) && Started(ops, Watch(g, start, ops))
  {
    if ops != [] {
      var init, op := ops[..|ops| - 1], ops[|ops| - 1];
      PausesOnTheClock(g, start, init);
      var w := Watch(g, start, init);
      if w.since.Some? {
        var i :| 0 <= i < |init| && init[i].Direction? && init[i].now == w.since.value;
        assert ops[i] == init[i];
      }
      ApplyTimed(g, Run(g, start, init), op, w);
    }
  }

  lemma ApplyTimed(g: G711, f: Fork, op: Op, w: Stopwatch)
    requires Wired(f) && Timed(f, w) && (op.Direction? ==> op.now > 0 && (w.since.Some? ==> w.since.value <= op.now))
    ensures Timed(Apply(g, f, op), WatchStep(w, f.bug, op))
  {
    if op.Ticked? { TickAddsNoGap(g, f, op); }
    else if op.Direction? && f.bug && !op.pause { ResumeTimed(f, op.now, w); }
  }

  lemma ResumeTimed(f: Fork, now: int, w: Stopwatch)
    requires Timed(f, w) && f.bug && now > 0 && (w.since.Some? ==> w.since.value <= now)
    ensures Timed(SetPaused(f, false, now), WatchStep(w, true, Direction(false, now)))
  {
    ResumeGaps(f, now, w);
    if w.since.Some? { WholeSamples(now - w.since.value, w); }
  }

  lemma ResumeGaps(f: Fork, now: int, w: Stopwatch)
    requires Timed(f, w) && f.bug && now > 0 && (w.since.Some? ==> w.since.value <= now)
    ensures Total(Gaps(SetPaused(f, false, now).log)) % M32 == WatchStep(w, true, Direction(false, now)).samples % M32
  {
    GapsSnoc(f.log, Resumed(GapOf(f.pausedAt, now)));
    if w.since.Some? { SumInWidth(Total(Gaps(f.log)), w.samples, (now - w.since.value) / MICROS_PER_SAMPLE); }
  }

  lemma SumInWidth(a: nat, b: int, q: nat)
    requires a % M32 == b % M32
    ensures (a + q % M32) % M32 == (b + q) % M32
  {
  }

  lemma WholeSamples(micros: nat, w: Stopwatch)
    requires MICROS_PER_SAMPLE * w.samples <= w.wall <= MICROS_PER_SAMPLE * w.samples + (MICROS_PER_SAMPLE - 1) * w.resumes
    ensures MICROS_PER_SAMPLE * (w.samples + micros / MICROS_PER_SAMPLE) <= w.wall + micros
    ensures w.wall + micros <= MICROS_PER_SAMPLE * (w.samples + micros / MICROS_PER_SAMPLE) + (MICROS_PER_SAMPLE - 1) * (w.resumes + 1)
  {
  }

  lemma TickAddsNoGap(g: G711, f: Fork, op: Op)
    requires Wired(f) && op.Ticked?
    ensures Gaps(Apply(g, f, op).log) == Gaps(f.log) && Apply(g, f, op).pausedAt == f.pausedAt
  {
    if AnyUsable(f.separate, op.frames) { ReadsAddNoGap(g, f, op.frames); }
    else { GapsSnoc(f.log, Silent(TickOf(op.microseconds))); }
  }

  lemma {:induction false} ReadsAddNoGap(g: G711, f: Fork, frames: seq<Read>)
    requires Wired(f)
    ensures Gaps(SendReads(g, f, frames).log) == Gaps(f.log)
  {
    if frames != [] {
      var init, r := frames[..|frames| - 1], frames[|frames| - 1];
      ReadsAddNoGap(g, f, init);
      if Usable(f.separate, r).Some? { SendAllAddsNoGap(g, SendReads(g, f, init), Usable(f.separate, r).value, r); }
    }
  }

  lemma SendAllAddsNoGap(g: G711, f: Fork, pcm: seq<Sample>, r: Read)
    requires Wired(f)
    ensures Gaps(SendAll(g, f, pcm, r).log) == Gaps(f.log)
  {
    if f.separate {
      var left := Encoded(g, f.streams[0].pt, Lane(pcm, 0, 2));
      var right := Encoded(g, f.streams[1].pt, Lane(pcm, 1, 2));
      GapsSnoc(f.log, Sent(0, PacketOf(f.streams[0], left), r.delivered));
      GapsSnoc(Send(f, 0, left, r.delivered).log, Sent(1, PacketOf(f.streams[1], right), r.delivered2));
    } else {
      GapsSnoc(f.log, Sent(0, PacketOf(f.streams[0], Encoded(g, f.streams[0].pt, Lane(pcm, 0, 1))), r.delivered));
    }
  }
}
