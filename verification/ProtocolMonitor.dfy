/** What the log of a run may say about one recording: a watchdog automaton,
  * independent of the protocol's state.
  *
  * It accepts exactly the lives in which a recording enters the hash at most
  * once, is detached before its leg is sent BYE, is BYEd before its pool is
  * freed, is marked leg_gone only while hashed and only by its own leg, and in
  * which no media tick begins while the fork is gated or after a mark. */
module ProtocolMonitor {
  import opened Common
  import opened RecordingProtocol

  /** The RTP fork: not there yet, forking, gated by a pause, gone for good. */
  datatype Line = NoFork | Open | Gated | Closed

  datatype Mon = Bad | Mon(phase: Phase, line: Line, ticking: bool, marked: bool, leg: Option<string>)

  const START := Mon(Unborn, NoFork, false, false, None)

  function Check(ok: bool, m: Mon): Mon { if ok then m else Bad }

  /** The watchdog of recording `r` reads one event. */
  function Watch(m: Mon, e: Event, r: RecId): Mon {
    if m.Bad? then Bad else
    match e
    case Alloc(q, _) => if q != r then m else Check(m.phase == Unborn, m.(phase := Private))
    case Insert(q) => if q != r then m else Check(m.phase == Private, m.(phase := InHash))
    case Unhash(q) => if q != r then m else Check(m.phase == InHash, m.(phase := Retired))
    case Answer(q, leg) => if q != r then m else
      Check(m.phase in {InHash, Retired} && m.leg == None, m.(leg := Some(leg)))
    case Attach(q) => if q != r then m else
      Check(m.phase in {InHash, Retired} && m.line == NoFork && m.leg.Some?, m.(line := Open))
    case Close(q) => if q != r then m else Check(m.line in {Open, Gated} && !m.ticking, m.(line := Closed))
    case TickBegin(q) => if q != r then m else
      Check(m.line == Open && !m.ticking && !m.marked, m.(ticking := true))
    case Send(q) => if q != r then m else Check(m.ticking, m)
    case TickEnd(q) => if q != r then m else Check(m.ticking, m.(ticking := false))
    case Gate(_, q) => if q != r then m else Check(m.line in {Open, Gated}, m.(line := Gated))
    case Ungate(_, q) => if q != r then m else Check(m.line in {Open, Gated}, m.(line := Open))
    case Mark(q, leg) => if q != r then m else
      Check(m.phase == InHash && m.leg == Some(leg), m.(marked := true))
    case Detach(q) => if q != r then m else
      Check(m.phase == Retired && !m.ticking, m.(phase := Detached, line := Closed))
    case Bye(q) => if q != r then m else Check(m.phase == Detached, m.(phase := Byed))
    case Free(q) => if q != r then m else Check(m.phase in {Byed, Private}, m.(phase := Freed))
    case _ => m
  }

  /** The watchdog of `r` after a whole log. */
  function Monitor(log: seq<Event>, r: RecId): Mon {
    if log == [] then START else Watch(Monitor(log[..|log| - 1], r), log[|log| - 1], r)
  }

  lemma MonitorSnoc(log: seq<Event>, e: Event, r: RecId)
    ensures Monitor(log + [e], r) == Watch(Monitor(log, r), e, r)
  {
    assert (log + [e])[..|log|] == log;
  }

  // ---- what an accepted log says, in plain order ----

  predicate Teardown(e: Event, r: RecId) { e == Detach(r) || e == Bye(r) || e == Free(r) }

  function CountOf(log: seq<Event>, e: Event): nat {
    if log == [] then 0 else CountOf(log[..|log| - 1], e) + if log[|log| - 1] == e then 1 else 0
  }

  function BitOf(b: bool): nat { if b then 1 else 0 }

  /** An accepted life: each of insert, detach, BYE and free at most once, and how far it got says which happened. */
  lemma {:induction false} AcceptedCounts(log: seq<Event>, r: RecId)
    requires Monitor(log, r).Mon?
    ensures CountOf(log, Free(r)) == BitOf(Monitor(log, r).phase == Freed)
    ensures CountOf(log, Detach(r)) == CountOf(log, Bye(r)) + BitOf(Monitor(log, r).phase == Detached)
    ensures CountOf(log, Insert(r)) <= 1
    ensures CountOf(log, Insert(r)) == BitOf(Monitor(log, r).phase in {InHash, Retired, Detached, Byed})
                                       + if Monitor(log, r).phase == Freed then CountOf(log, Bye(r)) else 0
    ensures Monitor(log, r).phase in {Unborn, Private, InHash, Retired, Detached} ==> CountOf(log, Bye(r)) == 0
    ensures Monitor(log, r).phase == Byed ==> CountOf(log, Bye(r)) == 1
    ensures CountOf(log, Bye(r)) <= 1
  {
    if log != [] { AcceptedCounts(log[..|log| - 1], r); }
  }

  /** In an accepted log a BYE follows a detach, a mark comes before the recording leaves the hash. */
  lemma {:induction false} AcceptedOrder(log: seq<Event>, r: RecId, i: nat, j: nat)
    requires Monitor(log, r).Mon? && i < j < |log|
    ensures !(log[i] == Bye(r) && log[j] == Detach(r))
    ensures !(log[i] == Free(r) && Teardown(log[j], r))
    ensures !(log[i] == Unhash(r) && (log[j] == Insert(r) || (log[j].Mark? && log[j].r == r)))
    ensures !(log[i] == Detach(r) && (log[j] == Send(r) || log[j] == TickBegin(r)))
    ensures !(log[i] == Bye(r) && log[j].Mark? && log[j].r == r)
  {
    if j < |log| - 1 {
      AcceptedOrder(log[..|log| - 1], r, i, j);
    } else {
      PhaseAfter(log[..|log| - 1], r, i);
    }
  }

  function Rank(p: Phase): nat {
    match p
    case Unborn => 0
    case Private => 1
    case InHash => 2
    case Retired => 3
    case Detached => 4
    case Byed => 5
    case Freed => 6
  }

  /** Lives only move forward: what has happened stays happened. */
  lemma {:induction false} PhaseAfter(log: seq<Event>, r: RecId, i: nat)
    requires Monitor(log, r).Mon? && i < |log|
    ensures log[i] == Unhash(r) ==> Rank(Monitor(log, r).phase) >= 3
    ensures log[i] == Detach(r) ==> Rank(Monitor(log, r).phase) >= 4 && Monitor(log, r).line == Closed && !Monitor(log, r).ticking
    ensures log[i] == Bye(r) ==> Rank(Monitor(log, r).phase) >= 5
    ensures log[i] == Free(r) ==> Monitor(log, r).phase == Freed
  {
    if i < |log| - 1 { PhaseAfter(log[..|log| - 1], r, i); }
  }

  /** After a mark no tick begins; every packet after it belongs to the tick that was in flight. */
  lemma {:induction false} AcceptedMark(log: seq<Event>, r: RecId, i: nat, j: nat)
    requires Monitor(log, r).Mon? && i < j < |log| && log[i].Mark? && log[i].r == r
    ensures log[j] != TickBegin(r)
    ensures Monitor(log, r).marked
  {
    assert Monitor(log[..i + 1], r).Mon? && Monitor(log[..i + 1], r).marked by { MarkedAt(log, r, i); }
    MarkedStays(log, r, i + 1, j);
  }

  lemma {:induction false} MarkedAt(log: seq<Event>, r: RecId, i: nat)
    requires Monitor(log, r).Mon? && i < |log| && log[i].Mark? && log[i].r == r
    ensures Monitor(log[..i + 1], r).Mon? && Monitor(log[..i + 1], r).marked
  {
    if i == |log| - 1 { assert log[..i + 1] == log; }
    else { assert log[..|log| - 1][..i + 1] == log[..i + 1]; MarkedAt(log[..|log| - 1], r, i); }
  }

  lemma {:induction false} MarkedStays(log: seq<Event>, r: RecId, i: nat, j: nat)
    requires Monitor(log, r).Mon? && i <= j < |log|
    requires Monitor(log[..i], r).Mon? && Monitor(log[..i], r).marked
    ensures Monitor(log, r).marked && log[j] != TickBegin(r)
  {
    var init := log[..|log| - 1];
    if i < |init| {
      assert init[..i] == log[..i];
      MarkedStays(init, r, i, if j < |init| then j else i);
    } else {
      assert init == log[..i];
    }
  }

  /** The leg a watchdog knows is one its recording's INVITE answered with. */
  lemma {:induction false} LegWasAnswered(log: seq<Event>, r: RecId)
    requires Monitor(log, r).Mon? && Monitor(log, r).leg.Some?
    ensures Answer(r, Monitor(log, r).leg.value) in log
  {
    var init, e := log[..|log| - 1], log[|log| - 1];
    if Monitor(init, r).leg.Some? { LegWasAnswered(init, r); }
    assert log == init + [e];
  }

  /** A mark names a leg that this very recording's INVITE was answered by. */
  lemma {:induction false} MarkedByOwnLeg(log: seq<Event>, r: RecId, leg: string)
    requires Monitor(log, r).Mon? && Mark(r, leg) in log
    ensures Answer(r, leg) in log
  {
    var init, e := log[..|log| - 1], log[|log| - 1];
    assert log == init + [e];
    if e == Mark(r, leg) { LegWasAnswered(init, r); } else { MarkedByOwnLeg(init, r, leg); }
  }

  /** What was once in the hash has an insert in the log. */
  lemma {:induction false} HashedWasInserted(log: seq<Event>, r: RecId)
    requires Monitor(log, r).Mon? && Rank(Monitor(log, r).phase) in {2, 3, 4, 5}
    ensures Insert(r) in log
  {
    var init, e := log[..|log| - 1], log[|log| - 1];
    assert log == init + [e];
    if e != Insert(r) { HashedWasInserted(init, r); }
  }

  ghost predicate Before(log: seq<Event>, e: Event, j: nat)
    requires j <= |log|
  {
    exists i :: 0 <= i < j && log[i] == e
  }

  lemma BeforeStays(log: seq<Event>, e: Event, j: nat, k: nat)
    requires j <= k <= |log| && Before(log[..j], e, j)
    ensures Before(log, e, k)
  {
    var i :| 0 <= i < j && log[..j][i] == e;
    assert log[i] == e;
  }

  /** How far a life got says what has happened. */
  lemma {:induction false} PhaseHasCauses(log: seq<Event>, r: RecId)
    requires Monitor(log, r).Mon?
    ensures Rank(Monitor(log, r).phase) in {3, 4, 5} ==> Before(log, Unhash(r), |log|)
    ensures Rank(Monitor(log, r).phase) in {4, 5} ==> Before(log, Detach(r), |log|)
    ensures Monitor(log, r).phase == Byed ==> Before(log, Bye(r), |log|)
    ensures Monitor(log, r).phase == Private ==> !Before(log, Insert(r), |log|)
  {
    if log != [] {
      var init, e := log[..|log| - 1], log[|log| - 1];
      PhaseHasCauses(init, r);
      if Before(init, Unhash(r), |init|) { BeforeStays(log, Unhash(r), |init|, |log|); }
      if Before(init, Detach(r), |init|) { BeforeStays(log, Detach(r), |init|, |log|); }
      if Before(init, Bye(r), |init|) { BeforeStays(log, Bye(r), |init|, |log|); }
      assert log[|log| - 1] == e;
      if Monitor(log, r).phase == Private { NotInsertedYet(log, r); }
    }
  }

  lemma NotInsertedYet(log: seq<Event>, r: RecId)
    requires Monitor(log, r).Mon? && Rank(Monitor(log, r).phase) < 2
    ensures !Before(log, Insert(r), |log|)
  {
    if i :| 0 <= i < |log| && log[i] == Insert(r) { InsertedRank(log, r, i); }
  }

  lemma {:induction false} InsertedRank(log: seq<Event>, r: RecId, i: nat)
    requires Monitor(log, r).Mon? && i < |log| && log[i] == Insert(r)
    ensures Rank(Monitor(log, r).phase) >= 2
  {
    if i < |log| - 1 { InsertedRank(log[..|log| - 1], r, i); }
  }

  lemma {:induction false} AcceptedPrefix(log: seq<Event>, r: RecId, n: nat)
    requires Monitor(log, r).Mon? && n <= |log|
    ensures Monitor(log[..n], r).Mon?
  {
    if n == |log| { assert log[..n] == log; }
    else {
      assert log[..|log| - 1][..n] == log[..n];
      AcceptedPrefix(log[..|log| - 1], r, n);
    }
  }

  /** In an accepted log a fork is detached only once its recording is out of the hash, a leg is BYEd only once its
    * fork is detached, and the pool of an inserted recording is freed only once its leg is BYEd. */
  lemma AcceptedCauses(log: seq<Event>, r: RecId, j: nat)
    requires Monitor(log, r).Mon? && j < |log|
    ensures log[j] == Detach(r) ==> Before(log, Unhash(r), j)
    ensures log[j] == Bye(r) ==> Before(log, Detach(r), j)
    ensures log[j] == Free(r) && Before(log, Insert(r), j) ==> Before(log, Bye(r), j)
  {
    var pre := log[..j];
    AcceptedPrefix(log, r, j);
    AcceptedPrefix(log, r, j + 1);
    assert log[..j + 1] == pre + [log[j]];
    MonitorSnoc(pre, log[j], r);
    PhaseHasCauses(pre, r);
    if Before(pre, Unhash(r), j) { BeforeStays(log, Unhash(r), j, j); }
    if Before(pre, Detach(r), j) { BeforeStays(log, Detach(r), j, j); }
    if Before(pre, Bye(r), j) { BeforeStays(log, Bye(r), j, j); }
    if i :| 0 <= i < j && log[i] == Insert(r) { assert pre[i] == Insert(r); }
  }

  /** A recording is allocated once, for one call. */
  lemma {:induction false} AllocatedOnce(log: seq<Event>, r: RecId, u: string, v: string)
    requires Monitor(log, r).Mon? && Alloc(r, u) in log && Alloc(r, v) in log
    ensures u == v
  {
    var init, e := log[..|log| - 1], log[|log| - 1];
    assert log == init + [e];
    if Alloc(r, u) in init { AllocatedRank(init, r, u); }
    if Alloc(r, v) in init { AllocatedRank(init, r, v); }
    if Alloc(r, u) in init && Alloc(r, v) in init { AllocatedOnce(init, r, u, v); }
  }

  lemma {:induction false} AllocatedRank(log: seq<Event>, r: RecId, u: string)
    requires Monitor(log, r).Mon? && Alloc(r, u) in log
    ensures Rank(Monitor(log, r).phase) >= 1
  {
    var init, e := log[..|log| - 1], log[|log| - 1];
    assert log == init + [e];
    if e != Alloc(r, u) { AllocatedRank(init, r, u); }
  }
}
