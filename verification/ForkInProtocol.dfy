/** The media fork inside the lifetime protocol: the log of a run, read for one recording, is a run of that recording's
  * fork. What the media layer proves of a fork over any operations then holds of every interleaving. */
module ForkInProtocol {
  import opened Common
  import opened RecordingProtocol
  import opened ProtocolMonitor
  import opened ProtocolWatch
  import opened ProtocolRuns
  import opened ProtocolOutcomes
  import Media = MediaFork
  import Timeline = MediaTimeline

  /** What the outside gives the step logged at some position: the reads of a tick and its packet time, the clock, and
    * whether a close comes from a tick that found the leg gone. */
  datatype Feed = Feed(frames: seq<Media.Read>, microseconds: int, now: int, byTick: bool)

  /** One logged step, as the fork of recording `r` sees it; `m` is its watchdog before the step. */
  function OpsFor(e: Event, r: RecId, m: Mon, x: Feed): (ops: seq<Timeline.Op>)
    ensures |ops| <= 1
  {
    match e
    case TickBegin(q) => if q == r then [Timeline.Ticked(x.frames, x.microseconds)] else []
    case Gate(_, q) => if q == r then [Timeline.Direction(true, x.now)] else []
    case Ungate(_, q) => if q == r then [Timeline.Direction(false, x.now)] else []
    case Close(q) =>
      if q != r then [] else if x.byTick && Listening(m) && m.marked then [Timeline.LegGone] else [Timeline.Closed]
    case Detach(q) => if q == r then [Timeline.Closed] else []
    case _ => []
  }

  predicate Listening(m: Mon) { m.Mon? && m.line == Open }

  function OpsOf(log: seq<Event>, r: RecId, feed: nat -> Feed): seq<Timeline.Op> {
    if log == [] then []
    else
      var init := log[..|log| - 1];
      OpsOf(init, r, feed) + OpsFor(log[|log| - 1], r, Monitor(init, r), feed(|log| - 1))
  }

  /** The fork of `r` after a log. */
  function ForkAfter(g: Media.G711, start: Media.Fork, log: seq<Event>, r: RecId, feed: nat -> Feed): (f: Media.Fork)
    requires Media.Wired(start)
    ensures Media.Wired(f) && f.separate == start.separate
  {
    Timeline.Run(g, start, OpsOf(log, r, feed))
  }

  ghost predicate JustAttached(f: Media.Fork) { Timeline.Fresh(f) && f.bug && !f.legEnded }

  /** The fork is where the watchdog's line says. */
  ghost predicate InLine(f: Media.Fork, start: Media.Fork, m: Mon) {
    m.Mon?
    && match m.line
       case NoFork => f == start
       case Open => f.bug && !f.paused
       case Gated => f.bug && f.paused
       case Closed => !f.bug
  }

  lemma OneMore(g: Media.G711, start: Media.Fork, ops: seq<Timeline.Op>, op: Timeline.Op)
    requires Media.Wired(start)
    ensures Timeline.Run(g, start, ops + [op]) == Timeline.Apply(g, Timeline.Run(g, start, ops), op)
  {
    assert (ops + [op])[..|ops|] == ops;
  }

  /** What one operation does to the bug and its pause flag. */
  lemma OpMoves(g: Media.G711, f: Media.Fork, op: Timeline.Op)
    requires Media.Wired(f)
    ensures var f' := Timeline.Apply(g, f, op);
      && (op.Ticked? ==> f'.bug == f.bug && f'.paused == f.paused)
      && (op.Direction? ==> f'.bug == f.bug && (f.bug ==> f'.paused == op.pause))
      && (op.Closed? || (op.LegGone? && f.bug && !f.paused) ==> !f'.bug)
  {
  }

  lemma EventKeepsLine(
      g: Media.G711, start: Media.Fork, ops: seq<Timeline.Op>, m: Mon, e: Event, r: RecId, x: Feed)
    requires JustAttached(start) && InLine(Timeline.Run(g, start, ops), start, m) && Watch(m, e, r).Mon?
    ensures InLine(Timeline.Run(g, start, ops + OpsFor(e, r, m, x)), start, Watch(m, e, r))
  {
    var more := OpsFor(e, r, m, x);
    if more == [] {
      assert ops + more == ops;
    } else {
      OneMore(g, start, ops, more[0]);
      OpMoves(g, Timeline.Run(g, start, ops), more[0]);
    }
  }

  /** The bug and the pause flag of the fork are those the watchdog of its recording has seen, in every accepted log. */
  lemma {:induction false} ForkInLine(g: Media.G711, start: Media.Fork, log: seq<Event>, r: RecId, feed: nat -> Feed)
    requires JustAttached(start) && Monitor(log, r).Mon?
    ensures InLine(ForkAfter(g, start, log, r, feed), start, Monitor(log, r))
  {
    if log != [] {
      var init, n := log[..|log| - 1], |log| - 1;
      ForkInLine(g, start, init, r, feed);
      EventKeepsLine(g, start, OpsOf(init, r, feed), Monitor(init, r), log[n], r, feed(n));
    }
  }

  /** Nothing was heard of a fork before its attach. */
  lemma {:induction false} AttachedLine(log: seq<Event>, r: RecId)
    requires Monitor(log, r).Mon?
    ensures Attach(r) in log ==> Monitor(log, r).line != NoFork
    ensures LineFits(Monitor(log, r))
  {
    if log != [] {
      var init, e := log[..|log| - 1], log[|log| - 1];
      assert log == init + [e];
      AttachedLine(init, r);
      MonitorSnoc(init, e, r);
      LineStaysFit(Monitor(init, r), e, r);
    }
  }

  /** No fork before the hash, no open fork after the detach. */
  predicate LineFits(m: Mon) {
    m.Mon? ==>
      && (m.phase in {Unborn, Private} ==> m.line == NoFork)
      && (m.phase in {Detached, Byed} ==> m.line == Closed)
      && (m.phase == Freed ==> m.line in {NoFork, Closed})
  }

  lemma LineStaysFit(m: Mon, e: Event, r: RecId)
    requires LineFits(m) && Watch(m, e, r).Mon?
    ensures LineFits(Watch(m, e, r)) && (m.line != NoFork || e == Attach(r) ==> Watch(m, e, r).line != NoFork)
  {
  }

  /** In every interleaving, once a recording's fork was attached: the fork has its bug exactly while the protocol's call
    * has it, and then the two pause flags are one. */
  lemma ForkFollowsRun(g: Media.G711, start: Media.Fork, acts: seq<Action>, r: RecId, feed: nat -> Feed)
    requires JustAttached(start) && Attach(r) in Exec(acts).log
    ensures var s, f := Exec(acts), ForkAfter(g, start, Exec(acts).log, r, feed);
      && (f.bug <==> r in s.bugs)
      && (r in s.bugs ==> f.paused == s.bugs[r].paused)
  {
    RunsAreGood(acts);
    var s := Exec(acts);
    assert Consistent(ViewOf(s, r), Monitor(s.log, r));
    ForkInLine(g, start, s.log, r, feed);
    AttachedLine(s.log, r);
  }

  /** In every interleaving each tick the protocol begins is one the fork carries out: its bug is there and not paused. */
  lemma TicksAreDelivered(g: Media.G711, start: Media.Fork, acts: seq<Action>, r: RecId, feed: nat -> Feed, n: nat)
    requires JustAttached(start) && n < |Exec(acts).log| && Exec(acts).log[n] == TickBegin(r)
    ensures var log := Exec(acts).log;
      ForkAfter(g, start, log[..n + 1], r, feed)
        == Media.Tick(g, ForkAfter(g, start, log[..n], r, feed), feed(n).frames, feed(n).microseconds)
  {
    RunsAreGood(acts);
    var log := Exec(acts).log;
    assert Consistent(ViewOf(Exec(acts), r), Monitor(log, r));
    TickAtIsDelivered(g, start, log, r, feed, n);
  }

  lemma TickAtIsDelivered(g: Media.G711, start: Media.Fork, log: seq<Event>, r: RecId, feed: nat -> Feed, n: nat)
    requires JustAttached(start) && n < |log| && log[n] == TickBegin(r) && Monitor(log, r).Mon?
    ensures ForkAfter(g, start, log[..n + 1], r, feed)
         == Media.Tick(g, ForkAfter(g, start, log[..n], r, feed), feed(n).frames, feed(n).microseconds)
  {
    AcceptedPrefix(log, r, n);
    AcceptedPrefix(log, r, n + 1);
    PrefixEnds(log, n);
    TickIsDelivered(g, start, log[..n], r, feed);
  }

  lemma TickIsDelivered(g: Media.G711, start: Media.Fork, log: seq<Event>, r: RecId, feed: nat -> Feed)
    requires JustAttached(start) && Monitor(log, r).Mon? && Monitor(log + [TickBegin(r)], r).Mon?
    ensures ForkAfter(g, start, log + [TickBegin(r)], r, feed)
         == Media.Tick(g, ForkAfter(g, start, log, r, feed), feed(|log|).frames, feed(|log|).microseconds)
  {
    TickFindsBug(g, start, log, r, feed);
    TickOps(log, r, feed);
    OneMore(g, start, OpsOf(log, r, feed), TickFrom(feed(|log|)));
    Delivered(g, ForkAfter(g, start, log, r, feed), feed(|log|));
  }

  lemma TickFindsBug(g: Media.G711, start: Media.Fork, log: seq<Event>, r: RecId, feed: nat -> Feed)
    requires JustAttached(start) && Monitor(log, r).Mon? && Monitor(log + [TickBegin(r)], r).Mon?
    ensures ForkAfter(g, start, log, r, feed).bug && !ForkAfter(g, start, log, r, feed).paused
  {
    MonitorSnoc(log, TickBegin(r), r);
    TickListens(Monitor(log, r), r);
    ForkInLine(g, start, log, r, feed);
  }

  lemma TickListens(m: Mon, r: RecId)
    requires Watch(m, TickBegin(r), r).Mon?
    ensures Listening(m)
  {
  }

  function TickFrom(x: Feed): Timeline.Op { Timeline.Ticked(x.frames, x.microseconds) }

  lemma TickOps(log: seq<Event>, r: RecId, feed: nat -> Feed)
    ensures OpsOf(log + [TickBegin(r)], r, feed) == OpsOf(log, r, feed) + [TickFrom(feed(|log|))]
  {
    OpsSnoc(log, TickBegin(r), r, feed);
    TickOp(r, Monitor(log, r), feed(|log|));
  }

  lemma OpsSnoc(log: seq<Event>, e: Event, r: RecId, feed: nat -> Feed)
    ensures OpsOf(log + [e], r, feed) == OpsOf(log, r, feed) + OpsFor(e, r, Monitor(log, r), feed(|log|))
  {
    assert (log + [e])[..|log|] == log;
  }

  lemma TickOp(r: RecId, m: Mon, x: Feed)
    ensures OpsFor(TickBegin(r), r, m, x) == [TickFrom(x)]
  {
  }

  lemma Delivered(g: Media.G711, f: Media.Fork, x: Feed)
    requires Media.Wired(f) && f.bug && !f.paused
    ensures Timeline.Apply(g, f, TickFrom(x)) == Media.Tick(g, f, x.frames, x.microseconds)
  {
  }

  /** A tick that finds its recording marked is the fork's tick that finds the leg gone. */
  lemma MarkedTickIsLegGone(acts: seq<Action>, r: RecId, x: Feed)
    requires Enabled(Exec(acts), Tick(r)) && r in Exec(acts).table.recs && Exec(acts).table.recs[r].legGone && x.byTick
    ensures Apply(Exec(acts), Tick(r)).log == Exec(acts).log + [Close(r)]
    ensures OpsFor(Close(r), r, Monitor(Exec(acts).log, r), x) == [Timeline.LegGone]
  {
    RunsAreGood(acts);
    assert Consistent(ViewOf(Exec(acts), r), Monitor(Exec(acts).log, r));
  }

  /** What the ticks of a log owe stream `i` of the fork of `r`. */
  function AudioOf(g: Media.G711, start: Media.Fork, log: seq<Event>, r: RecId, feed: nat -> Feed, i: nat): seq<seq<Byte>>
    requires i < |start.streams|
  {
    if log == [] then []
    else
      AudioOf(g, start, log[..|log| - 1], r, feed, i)
      + if log[|log| - 1] == TickBegin(r)
        then Timeline.Owed(g, start.separate, start.streams[i].pt, feed(|log| - 1).frames, i) else []
  }

  lemma OwedByOneMore(g: Media.G711, start: Media.Fork, ops: seq<Timeline.Op>, op: Timeline.Op, i: nat)
    requires Media.Wired(start) && i < |start.streams|
    ensures Timeline.OwedBy(g, start, ops + [op], i)
         == Timeline.OwedBy(g, start, ops, i)
          + if op.Ticked? && Timeline.Run(g, start, ops).bug && !Timeline.Run(g, start, ops).paused
            then Timeline.Owed(g, start.separate, start.streams[i].pt, op.frames, i) else []
  {
    assert (ops + [op])[..|ops|] == ops;
  }

  lemma EventOwes(g: Media.G711, start: Media.Fork, ops: seq<Timeline.Op>, m: Mon, e: Event, r: RecId, x: Feed, i: nat)
    requires JustAttached(start) && InLine(Timeline.Run(g, start, ops), start, m) && Watch(m, e, r).Mon?
    requires i < |start.streams|
    ensures Timeline.OwedBy(g, start, ops + OpsFor(e, r, m, x), i)
         == Timeline.OwedBy(g, start, ops, i)
          + if e == TickBegin(r) then Timeline.Owed(g, start.separate, start.streams[i].pt, x.frames, i) else []
  {
    var f := Timeline.Run(g, start, ops);
    TickIsTick(e, r, m, x);
    if e == TickBegin(r) { TickListens(m, r); }
    OpsOwe(g, start, ops, OpsFor(e, r, m, x), i);
  }

  /** A tick's begin, and no other event, is a tick of the fork. */
  lemma TickIsTick(e: Event, r: RecId, m: Mon, x: Feed)
    ensures e == TickBegin(r) ==> OpsFor(e, r, m, x) == [TickFrom(x)]
    ensures e != TickBegin(r) ==> OpsFor(e, r, m, x) == [] || !OpsFor(e, r, m, x)[0].Ticked?
  {
  }

  lemma OpsOwe(g: Media.G711, start: Media.Fork, ops: seq<Timeline.Op>, more: seq<Timeline.Op>, i: nat)
    requires Media.Wired(start) && i < |start.streams| && |more| <= 1
    ensures Timeline.OwedBy(g, start, ops + more, i)
         == Timeline.OwedBy(g, start, ops, i)
          + if more != [] && more[0].Ticked? && Timeline.Run(g, start, ops).bug && !Timeline.Run(g, start, ops).paused
            then Timeline.Owed(g, start.separate, start.streams[i].pt, more[0].frames, i) else []
  {
    if more == [] { assert ops + more == ops; }
    else { assert more == [more[0]]; OwedByOneMore(g, start, ops, more[0], i); }
  }

  lemma {:induction false} LogOwes(g: Media.G711, start: Media.Fork, log: seq<Event>, r: RecId, feed: nat -> Feed, i: nat)
    requires JustAttached(start) && i < |start.streams| && Monitor(log, r).Mon?
    ensures Timeline.OwedBy(g, start, OpsOf(log, r, feed), i) == AudioOf(g, start, log, r, feed, i)
  {
    if log != [] {
      var init, n := log[..|log| - 1], |log| - 1;
      LogOwes(g, start, init, r, feed, i);
      ForkInLine(g, start, init, r, feed);
      EventOwes(g, start, OpsOf(init, r, feed), Monitor(init, r), log[n], r, feed(n), i);
    }
  }

  /** In every interleaving what a recording's fork sends on a stream is, packet by packet, the audio of the ticks that the
    * protocol began for it, and of nothing else. */
  lemma RunSendsItsTicks(g: Media.G711, start: Media.Fork, acts: seq<Action>, r: RecId, feed: nat -> Feed, i: nat)
    requires JustAttached(start) && i < |start.streams|
    ensures var log := Exec(acts).log;
      Timeline.Payloads(ForkAfter(g, start, log, r, feed).log, i) == AudioOf(g, start, log, r, feed, i)
  {
    RunsAreGood(acts);
    var s := Exec(acts);
    assert Consistent(ViewOf(s, r), Monitor(s.log, r));
    LogOwes(g, start, s.log, r, feed, i);
    Timeline.PayloadsAreTheAudio(g, start, OpsOf(s.log, r, feed), i);
  }

  // ---- pauses: the gates and ungates of the log on the fork's clock ----

  predicate IsGate(e: Event, r: RecId) { e.Gate? && e.r == r }

  predicate IsUngate(e: Event, r: RecId) { e.Ungate? && e.r == r }

  /** Where the pause began that the log has not ended: its first gate since the last ungate. */
  function PauseStart(log: seq<Event>, r: RecId): (i: Option<nat>)
    ensures i.Some? ==> i.value < |log|
  {
    if log == [] then None
    else
      var init, e := log[..|log| - 1], log[|log| - 1];
      if IsUngate(e, r) then None
      else if IsGate(e, r) && PauseStart(init, r).None? then Some(|log| - 1)
      else PauseStart(init, r)
  }

  ghost predicate UngatedBetween(log: seq<Event>, r: RecId, i: nat, j: nat)
    requires j <= |log|
  {
    exists k :: i < k < j && IsUngate(log[k], r)
  }

  /** Said by positions: a gate, no ungate after it, and every earlier gate ended before it. */
  ghost predicate StartsPause(log: seq<Event>, r: RecId, i: nat) {
    && i < |log| && IsGate(log[i], r) && !UngatedBetween(log, r, i, |log|)
    && forall h :: 0 <= h < i && IsGate(log[h], r) ==> UngatedBetween(log, r, h, i)
  }

  lemma {:induction false} PauseStartIs(log: seq<Event>, r: RecId, i: nat)
    ensures PauseStart(log, r) == Some(i) <==> StartsPause(log, r, i)
    ensures PauseStart(log, r) == None ==> forall h :: 0 <= h < |log| && IsGate(log[h], r) ==> UngatedBetween(log, r, h, |log|)
  {
    if log != [] {
      var init, n := log[..|log| - 1], |log| - 1;
      PauseStartIs(init, r, i);
      forall h: nat, j: nat | h <= j <= n ensures UngatedBetween(log, r, h, j) <==> UngatedBetween(init, r, h, j) {
        BetweenStays(log, r, h, j);
      }
      if IsUngate(log[n], r) {
        forall h | 0 <= h < n ensures UngatedBetween(log, r, h, |log|) { assert IsUngate(log[n], r); }
      } else {
        forall h: nat | h <= n ensures UngatedBetween(log, r, h, |log|) <==> UngatedBetween(init, r, h, n) {
          BetweenGrows(log, r, h);
        }
        if PauseStart(init, r).Some? { PauseStartIs(init, r, PauseStart(init, r).value); }
      }
    }
  }

  lemma BetweenStays(log: seq<Event>, r: RecId, h: nat, j: nat)
    requires log != [] && h <= j <= |log| - 1
    ensures UngatedBetween(log, r, h, j) <==> UngatedBetween(log[..|log| - 1], r, h, j)
  {
    var init := log[..|log| - 1];
    if k :| h < k < j && IsUngate(log[k], r) { assert IsUngate(init[k], r); }
    if k :| h < k < j && IsUngate(init[k], r) { assert IsUngate(log[k], r); }
  }

  lemma BetweenGrows(log: seq<Event>, r: RecId, h: nat)
    requires log != [] && h <= |log| - 1 && !IsUngate(log[|log| - 1], r)
    ensures UngatedBetween(log, r, h, |log|) <==> UngatedBetween(log[..|log| - 1], r, h, |log| - 1)
  {
    BetweenStays(log, r, h, |log| - 1);
    if k :| h < k < |log| && IsUngate(log[k], r) { assert h < k < |log| - 1; }
  }

  /** The whole samples between the start of a pause and its end at log position `k`. */
  function PauseSamples(log: seq<Event>, r: RecId, feed: nat -> Feed, k: nat): Word32
    requires k < |log|
  {
    match PauseStart(log[..k], r)
    case None => 0
    case Some(i) => (feed(k).now - feed(i).now) / Media.MICROS_PER_SAMPLE % Media.M32
  }

  /** Those of the ungates of `r`, in the order of the log. */
  function PausesOf(log: seq<Event>, r: RecId, feed: nat -> Feed): seq<Word32> {
    if log == [] then []
    else
      var n := |log| - 1;
      PausesOf(log[..n], r, feed) + if IsUngate(log[n], r) then [PauseSamples(log, r, feed, n)] else []
  }

  /** What one operation adds to the gaps, and where it leaves the start of a pause. */
  lemma OpGaps(g: Media.G711, f: Media.Fork, op: Timeline.Op)
    requires Media.Wired(f)
    ensures var f' := Timeline.Apply(g, f, op);
      var resumes := op.Direction? && !op.pause && f.bug;
      && Timeline.Gaps(f'.log) == Timeline.Gaps(f.log) + (if resumes then [Media.GapOf(f.pausedAt, op.now)] else [])
      && f'.pausedAt == if resumes then 0 else if op.Direction? && f.bug && f.pausedAt == 0 then op.now else f.pausedAt
  {
    if op.Ticked? && f.bug && !f.paused {
      Timeline.TickAddsNoGap(g, f, op);
    } else if op.Direction? && !op.pause && f.bug {
      Timeline.GapsSnoc(f.log, Media.Resumed(Media.GapOf(f.pausedAt, op.now)));
    }
  }

  /** The clock is positive and does not run backwards from one logged step to a later one. */
  ghost predicate ClockRuns(feed: nat -> Feed) { forall i: nat, j: nat :: i <= j ==> 0 < feed(i).now <= feed(j).now }

  /** The fork has paused when the log says, and its gaps so far are the log's. */
  ghost predicate KeepsTime(f: Media.Fork, log: seq<Event>, r: RecId, feed: nat -> Feed) {
    && Timeline.Gaps(f.log) == PausesOf(log, r, feed)
    && f.pausedAt == match PauseStart(log, r) case None => 0 case Some(i) => feed(i).now
  }

  /** What one more event adds to the pauses of a log, and where it leaves the start of one. */
  lemma PausesSnoc(log: seq<Event>, e: Event, r: RecId, feed: nat -> Feed)
    ensures PausesOf(log + [e], r, feed)
         == PausesOf(log, r, feed) + if IsUngate(e, r) then [PauseSamples(log + [e], r, feed, |log|)] else []
    ensures PauseStart(log + [e], r)
         == if IsUngate(e, r) then None
            else if IsGate(e, r) && PauseStart(log, r).None? then Some(|log|) else PauseStart(log, r)
  {
    assert (log + [e])[..|log|] == log;
  }

  lemma UngateKeepsTime(g: Media.G711, f: Media.Fork, log: seq<Event>, e: Event, r: RecId, feed: nat -> Feed)
    requires ClockRuns(feed) && Media.Wired(f) && f.bug && KeepsTime(f, log, r, feed) && IsUngate(e, r)
    ensures KeepsTime(Timeline.Apply(g, f, Timeline.Direction(false, feed(|log|).now)), log + [e], r, feed)
  {
    var n := |log|;
    OpGaps(g, f, Timeline.Direction(false, feed(n).now));
    PausesSnoc(log, e, r, feed);
    assert (log + [e])[..n] == log;
    if PauseStart(log, r).Some? {
      var i := PauseStart(log, r).value;
      assert 0 < feed(i).now <= feed(n).now;
    }
  }

  lemma GateKeepsTime(g: Media.G711, f: Media.Fork, log: seq<Event>, e: Event, r: RecId, feed: nat -> Feed)
    requires ClockRuns(feed) && Media.Wired(f) && f.bug && KeepsTime(f, log, r, feed) && IsGate(e, r)
    ensures KeepsTime(Timeline.Apply(g, f, Timeline.Direction(true, feed(|log|).now)), log + [e], r, feed)
  {
    OpGaps(g, f, Timeline.Direction(true, feed(|log|).now));
    PausesSnoc(log, e, r, feed);
    if PauseStart(log, r).Some? { assert 0 < feed(PauseStart(log, r).value).now; }
  }

  lemma OtherKeepsTime(g: Media.G711, f: Media.Fork, log: seq<Event>, e: Event, op: Timeline.Op, r: RecId, feed: nat -> Feed)
    requires Media.Wired(f) && KeepsTime(f, log, r, feed) && !IsGate(e, r) && !IsUngate(e, r)
    ensures KeepsTime(f, log + [e], r, feed)
    ensures !op.Direction? ==> KeepsTime(Timeline.Apply(g, f, op), log + [e], r, feed)
  {
    OpGaps(g, f, op);
    PausesSnoc(log, e, r, feed);
  }

  /** Gates and ungates are accepted between a fork's attach and its end only. */
  lemma GatedHasBug(m: Mon, e: Event, r: RecId, f: Media.Fork, start: Media.Fork)
    requires InLine(f, start, m) && Watch(m, e, r).Mon? && (IsGate(e, r) || IsUngate(e, r))
    ensures f.bug
  {
  }

  /** The fork after one more event. */
  lemma ForkGoesOn(g: Media.G711, start: Media.Fork, log: seq<Event>, e: Event, r: RecId, feed: nat -> Feed)
    requires Media.Wired(start)
    ensures var f, ops := ForkAfter(g, start, log, r, feed), OpsFor(e, r, Monitor(log, r), feed(|log|));
      ForkAfter(g, start, log + [e], r, feed) == if ops == [] then f else Timeline.Apply(g, f, ops[0])
  {
    var ops := OpsFor(e, r, Monitor(log, r), feed(|log|));
    OpsSnoc(log, e, r, feed);
    if ops == [] { assert OpsOf(log, r, feed) + ops == OpsOf(log, r, feed); }
    else {
      assert ops == [ops[0]];
      OneMore(g, start, OpsOf(log, r, feed), ops[0]);
    }
  }

  lemma EventKeepsTime(g: Media.G711, start: Media.Fork, log: seq<Event>, e: Event, r: RecId, feed: nat -> Feed)
    requires JustAttached(start) && ClockRuns(feed) && Monitor(log, r).Mon? && Monitor(log + [e], r).Mon?
    requires KeepsTime(ForkAfter(g, start, log, r, feed), log, r, feed)
    ensures KeepsTime(ForkAfter(g, start, log + [e], r, feed), log + [e], r, feed)
  {
    var f, ops := ForkAfter(g, start, log, r, feed), OpsFor(e, r, Monitor(log, r), feed(|log|));
    ForkGoesOn(g, start, log, e, r, feed);
    MonitorSnoc(log, e, r);
    ForkInLine(g, start, log, r, feed);
    if ops == [] { OtherKeepsTime(g, f, log, e, Timeline.Closed, r, feed); }
    else {
      if IsGate(e, r) || IsUngate(e, r) { GatedHasBug(Monitor(log, r), e, r, f, start); }
      if IsGate(e, r) { GateKeepsTime(g, f, log, e, r, feed); }
      else if IsUngate(e, r) { UngateKeepsTime(g, f, log, e, r, feed); }
      else { OtherKeepsTime(g, f, log, e, ops[0], r, feed); }
    }
  }

  lemma {:induction false} LogKeepsTime(g: Media.G711, start: Media.Fork, log: seq<Event>, r: RecId, feed: nat -> Feed)
    requires JustAttached(start) && ClockRuns(feed) && Monitor(log, r).Mon?
    ensures KeepsTime(ForkAfter(g, start, log, r, feed), log, r, feed)
  {
    if log != [] {
      var init, e := log[..|log| - 1], log[|log| - 1];
      assert log == init + [e];
      LogKeepsTime(g, start, init, r, feed);
      EventKeepsTime(g, start, init, e, r, feed);
    }
  }

  /** In every interleaving the fork's clock advances by a gap once per ungate of its recording, and the gap is the whole
    * samples, modulo 2^32, since the first gate that no ungate ended: since the pause began, however often it was repeated. */
  lemma RunPausesOnTheClock(g: Media.G711, start: Media.Fork, acts: seq<Action>, r: RecId, feed: nat -> Feed)
    requires JustAttached(start) && ClockRuns(feed)
    ensures Timeline.Gaps(ForkAfter(g, start, Exec(acts).log, r, feed).log) == PausesOf(Exec(acts).log, r, feed)
  {
    RunsAreGood(acts);
    assert Consistent(ViewOf(Exec(acts), r), Monitor(Exec(acts).log, r));
    LogKeepsTime(g, start, Exec(acts).log, r, feed);
  }

  // ---- the leg's end ----

  /** A fork without its bug does nothing any more. */
  lemma {:induction false} GoneForGood(
      g: Media.G711, start: Media.Fork, log: seq<Event>, more: seq<Event>, r: RecId, feed: nat -> Feed)
    requires Media.Wired(start) && !ForkAfter(g, start, log, r, feed).bug
    ensures var f, f' := ForkAfter(g, start, log, r, feed), ForkAfter(g, start, log + more, r, feed);
      !f'.bug && f'.log == f.log && f'.legEnded == f.legEnded
  {
    if more == [] { assert log + more == log; }
    else {
      var init, e := more[..|more| - 1], more[|more| - 1];
      GoneForGood(g, start, log, init, r, feed);
      LastApart(log, more);
      GoneStays(g, start, log + init, e, r, feed);
    }
  }

  lemma PrefixEnds(log: seq<Event>, n: nat)
    requires n < |log|
    ensures log[..n + 1] == log[..n] + [log[n]]
  {
  }

  lemma LastApart(log: seq<Event>, more: seq<Event>)
    requires more != []
    ensures log + more == (log + more[..|more| - 1]) + [more[|more| - 1]]
  {
  }

  lemma GoneStays(g: Media.G711, start: Media.Fork, log: seq<Event>, e: Event, r: RecId, feed: nat -> Feed)
    requires Media.Wired(start) && !ForkAfter(g, start, log, r, feed).bug
    ensures var f, f' := ForkAfter(g, start, log, r, feed), ForkAfter(g, start, log + [e], r, feed);
      !f'.bug && f'.log == f.log && f'.legEnded == f.legEnded
  {
    OpsSnoc(log, e, r, feed);
    GoneWhatever(g, start, OpsOf(log, r, feed), OpsFor(e, r, Monitor(log, r), feed(|log|)));
  }

  lemma GoneWhatever(g: Media.G711, start: Media.Fork, ops: seq<Timeline.Op>, more: seq<Timeline.Op>)
    requires Media.Wired(start) && !Timeline.Run(g, start, ops).bug && |more| <= 1
    ensures var f, f' := Timeline.Run(g, start, ops), Timeline.Run(g, start, ops + more);
      !f'.bug && f'.log == f.log && f'.legEnded == f.legEnded
  {
    if more == [] { assert ops + more == ops; }
    else { assert more == [more[0]]; OneMore(g, start, ops, more[0]); }
  }

  /** In every interleaving the first tick that finds its recording marked ends the fork: it sends nothing, and nothing is
    * sent afterwards, whatever the run goes on to do. */
  lemma MarkedForkIsDone(g: Media.G711, start: Media.Fork, acts: seq<Action>, more: seq<Action>, r: RecId, feed: nat -> Feed)
    requires JustAttached(start) && Enabled(Exec(acts), Tick(r)) && feed(|Exec(acts).log|).byTick
    requires r in Exec(acts).table.recs && Exec(acts).table.recs[r].legGone
    ensures var f, f' := ForkAfter(g, start, Exec(acts).log, r, feed),
                         ForkAfter(g, start, Exec(acts + [Tick(r)] + more).log, r, feed);
      f.bug && !f'.bug && f'.legEnded && f'.log == f.log
  {
    var log := Exec(acts).log;
    MarkedForkEnds(g, start, acts, r, feed);
    var rest := LoggedAfter(acts, more, r, feed(|log|));
    GoneForGood(g, start, log + [Close(r)], rest, r, feed);
  }

  lemma LoggedAfter(acts: seq<Action>, more: seq<Action>, r: RecId, x: Feed) returns (rest: seq<Event>)
    requires Enabled(Exec(acts), Tick(r)) && r in Exec(acts).table.recs && Exec(acts).table.recs[r].legGone && x.byTick
    ensures Exec(acts + [Tick(r)] + more).log == (Exec(acts).log + [Close(r)]) + rest
  {
    var now := acts + [Tick(r)];
    MarkedTickIsLegGone(acts, r, x);
    ExecSnoc(acts, Tick(r));
    assert (now + more)[..|now|] == now;
    PrefixLogged(now + more, |now|);
    rest := Exec(now + more).log[|Exec(now).log|..];
  }

  lemma MarkedForkEnds(g: Media.G711, start: Media.Fork, acts: seq<Action>, r: RecId, feed: nat -> Feed)
    requires JustAttached(start) && Enabled(Exec(acts), Tick(r)) && feed(|Exec(acts).log|).byTick
    requires r in Exec(acts).table.recs && Exec(acts).table.recs[r].legGone
    ensures var f, f' := ForkAfter(g, start, Exec(acts).log, r, feed),
                         ForkAfter(g, start, Exec(acts).log + [Close(r)], r, feed);
      f.bug && !f'.bug && f'.legEnded && f'.log == f.log
  {
    var log := Exec(acts).log;
    RunsAreGood(acts);
    assert Consistent(ViewOf(Exec(acts), r), Monitor(log, r));
    MarkedTickIsLegGone(acts, r, feed(|log|));
    OpsSnoc(log, Close(r), r, feed);
    OneMore(g, start, OpsOf(log, r, feed), Timeline.LegGone);
    ForkInLine(g, start, log, r, feed);
  }
}
