/** The log of every run is accepted by every recording's watchdog. */
module ProtocolWatch {
  import opened Common
  import opened RecordingTable
  import opened RecordingProtocol
  import opened ProtocolOwnership
  import opened ProtocolMonitor

  datatype Live = Live(media: Media, legGone: bool, leg: Leg)

  /** All of the state that concerns one recording's watchdog. */
  datatype View = View(phase: Phase, live: Option<Live>, bug: Option<Bug>)

  ghost function ViewOf(s: State, r: RecId): View {
    View(PhaseOf(s, r),
         if r in s.table.recs then Some(Live(s.table.recs[r].media, s.table.recs[r].legGone, s.table.recs[r].leg)) else None,
         if r in s.bugs then Some(s.bugs[r]) else None)
  }

  /** A bug on a call implies a live, undetached recording whose media context points at it. */
  ghost predicate BugOk(v: View) {
    && (v.bug.Some? ==> v.live.Some? && v.live.value.media in {Adding(true), Wired(true)} && v.phase in {InHash, Retired})
    && (v.live.Some? && v.live.value.media in {Adding(true), Wired(true)} ==> v.bug.Some?)
    && (v.live.Some? <==> v.phase !in {Unborn, Freed})
    && (v.phase in {Detached, Byed} ==> v.live.value.media in {Unattached, Unwired})
    && (v.phase == Private ==> v.live == Some(Live(Unattached, false, NoContext)))
  }

  ghost function LineOf(v: View): Line
    requires v.live.Some?
  {
    if v.phase in {Detached, Byed} then Closed
    else if v.bug.Some? then (if v.bug.value.paused then Gated else Open)
    else if v.live.value.media == Unattached then NoFork
    else Closed
  }

  /** The watchdog knows what the state knows. */
  ghost predicate Consistent(v: View, m: Mon) {
    && BugOk(v)
    && m.Mon? && m.phase == v.phase
    && (v.phase == Unborn ==> m == START)
    && (v.live.Some? ==>
          && m.line == LineOf(v)
          && m.ticking == (v.bug.Some? && v.bug.value.ticking)
          && m.marked == v.live.value.legGone
          && (v.live.value.leg.OnLeg? ==> m.leg == Some(v.live.value.leg.uuid))
          && (v.live.value.leg.NoContext? <==> m.leg.None?))
  }

  ghost predicate AllConsistent(s: State) {
    forall r: RecId :: Consistent(ViewOf(s, r), Monitor(s.log, r))
  }

  /** The recording an event is about; `None` for events no watchdog reads. */
  ghost function About(e: Event): Option<RecId> {
    match e
    case Passed(_) => None
    case Reinvited(_, _) => None
    case Outcome(_, _, _) => None
    case Drained(_) => None
    case _ => Some(e.r)
  }

  lemma WatchElse(m: Mon, e: Event, r: RecId)
    requires About(e) != Some(r)
    ensures Watch(m, e, r) == m
  {
  }

  /** A step that logs nothing for the watchdogs and changes no view. */
  lemma Unseen(s: State, s': State)
    requires AllConsistent(s) && (s'.log == s.log || (|s'.log| == |s.log| + 1 && s'.log[..|s.log|] == s.log && About(s'.log[|s.log|]) == None))
    requires forall r: RecId :: ViewOf(s', r) == ViewOf(s, r)
    ensures AllConsistent(s')
  {
    forall r: RecId ensures Consistent(ViewOf(s', r), Monitor(s'.log, r)) {
      assert Consistent(ViewOf(s, r), Monitor(s.log, r));
      if s'.log != s.log {
        assert s'.log == s.log + [s'.log[|s.log|]];
        MonitorSnoc(s.log, s'.log[|s.log|], r);
        WatchElse(Monitor(s.log, r), s'.log[|s.log|], r);
      }
    }
  }

  /** A step that logs one event, about the only recording whose view it changes. */
  lemma Seen(s: State, s': State, e: Event, r: RecId)
    requires AllConsistent(s) && s'.log == s.log + [e] && About(e) == Some(r)
    requires forall q: RecId :: q != r ==> ViewOf(s', q) == ViewOf(s, q)
    requires Consistent(ViewOf(s', r), Watch(Monitor(s.log, r), e, r))
    ensures AllConsistent(s')
  {
    forall q: RecId ensures Consistent(ViewOf(s', q), Monitor(s'.log, q)) {
      assert Consistent(ViewOf(s, q), Monitor(s.log, q));
      MonitorSnoc(s.log, e, q);
      if q != r { WatchElse(Monitor(s.log, q), e, q); }
    }
  }

  /** A step that logs nothing changes a view in a way the watchdog does not distinguish. */
  lemma Silent(s: State, s': State, r: RecId)
    requires AllConsistent(s) && s'.log == s.log
    requires forall q: RecId :: q != r ==> ViewOf(s', q) == ViewOf(s, q)
    requires Consistent(ViewOf(s', r), Monitor(s.log, r))
    ensures AllConsistent(s')
  {
    forall q: RecId ensures Consistent(ViewOf(s', q), Monitor(s'.log, q)) {
      assert Consistent(ViewOf(s, q), Monitor(s.log, q));
    }
  }

  // ---- the start that made a recording is the only one working on it ----

  ghost function Starter(pc: PC): Option<RecId> {
    match pc
    case Tearing(_, _, ToBind(r)) => Some(r)
    case Allocated(r) => Some(r)
    case Refused(r) => Some(r)
    case Binding(r) => Some(r)
    case Preparing(r) => Some(r)
    case Inviting(r) => Some(r)
    case Attaching(r) => Some(r)
    case Wiring(r) => Some(r)
    case Finishing(r) => Some(r)
    case Discarding(r) => Some(r)
    case _ => None
  }

  /** How far the start at `pc` has taken its recording. */
  ghost predicate StartedTo(pc: PC, rec: Rec) {
    match pc
    case Tearing(_, _, ToBind(_)) => rec.leg == NoContext && rec.media == Unattached
    case Allocated(_) => rec.leg == NoContext && rec.media == Unattached
    case Refused(_) => rec.leg == NoContext && rec.media == Unattached
    case Binding(_) => rec.leg == NoContext && rec.media == Unattached
    case Preparing(_) => rec.leg == NoContext && rec.media == Unattached
    case Inviting(_) => rec.leg == NoContext && rec.media == Unattached
    case Attaching(_) => rec.leg != NoContext && rec.media == Unattached
    case Wiring(_) => rec.leg != NoContext && rec.media.Adding?
    case Finishing(_) => rec.leg != NoContext && rec.media.Wired?
    case Discarding(_) => rec.media == Unattached
    case _ => true
  }

  ghost predicate StarterOk(s: State, t: Tid) {
    var pc := PcOf(s, t);
    Starter(pc).Some? ==>
      Starter(pc).value in s.phase && (Starter(pc).value in s.table.recs ==> StartedTo(pc, s.table.recs[Starter(pc).value]))
  }

  /** The media context is being added only while its start stands between bug_add and the assignment. */
  ghost predicate AddingOk(s: State, r: RecId) {
    r in s.table.recs && s.table.recs[r].media.Adding? ==> exists t: Tid :: PcOf(s, t) == Wiring(r)
  }

  ghost predicate SameStarter(pc: PC, pd: PC) { Starter(pc).Some? && Starter(pc) == Starter(pd) }

  ghost predicate StartersOk(s: State) {
    && (forall t: Tid :: StarterOk(s, t))
    && (forall t: Tid, u: Tid :: SameStarter(PcOf(s, t), PcOf(s, u)) ==> t == u)
    && (forall r: RecId :: AddingOk(s, r))
  }

  /** As far as a start can tell, nobody else has worked on the recording. */
  ghost predicate SameWork(rec: Rec, rec': Rec) {
    && (rec'.leg == NoContext <==> rec.leg == NoContext)
    && (rec'.media == Unattached <==> rec.media == Unattached)
    && (rec'.media.Adding? <==> rec.media.Adding?)
    && (rec'.media.Wired? <==> rec.media.Wired?)
  }

  lemma WorkStays(pc: PC, rec: Rec, rec': Rec)
    requires SameWork(rec, rec') && StartedTo(pc, rec)
    ensures StartedTo(pc, rec')
  {
  }

  /** No thread but `t` is running the start of `r`. */
  ghost predicate SoleStarter(s: State, t: Tid, r: RecId) {
    forall u: Tid :: u != t ==> Starter(PcOf(s, u)) != Some(r)
  }

  /** `t` moved; only `t` works on the recordings whose leg or media changed. */
  lemma StartersFollow(s: State, s': State, t: Tid, pc: PC, changed: set<RecId>)
    requires StartersOk(s) && s'.threads == s.threads[t := pc] && s.phase.Keys <= s'.phase.Keys
    requires Starter(pc).Some? ==> SoleStarter(s, t, Starter(pc).value)
    requires StarterOk(s', t)
    requires forall r: RecId :: r in changed ==> SoleStarter(s, t, r) && AddingOk(s', r)
    requires forall r: RecId :: r in s'.table.recs && r !in changed ==>
      r in s.table.recs && SameWork(s.table.recs[r], s'.table.recs[r])
    requires PcOf(s, t).Wiring? ==> PcOf(s, t).r in changed
    ensures StartersOk(s')
  {
    forall u: Tid ensures StarterOk(s', u) {
      assert StarterOk(s, u);
      if u != t && Starter(PcOf(s, u)).Some? && Starter(PcOf(s, u)).value in s'.table.recs {
        var r := Starter(PcOf(s, u)).value;
        assert r !in changed;
        WorkStays(PcOf(s, u), s.table.recs[r], s'.table.recs[r]);
      }
    }
    forall u: Tid, v: Tid | SameStarter(PcOf(s', u), PcOf(s', v)) ensures u == v {
      assert u != t ==> PcOf(s', u) == PcOf(s, u);
      assert v != t ==> PcOf(s', v) == PcOf(s, v);
      assert u != t && v != t ==> SameStarter(PcOf(s, u), PcOf(s, v));
    }
    forall r: RecId ensures AddingOk(s', r) {
      if r !in changed && r in s'.table.recs && s'.table.recs[r].media.Adding? {
        assert AddingOk(s, r);
        var u: Tid :| PcOf(s, u) == Wiring(r);
        assert PcOf(s', u) == Wiring(r);
      }
    }
  }

  lemma SoleIfMine(s: State, t: Tid, r: RecId)
    requires StartersOk(s) && Starter(PcOf(s, t)) == Some(r)
    ensures SoleStarter(s, t, r)
  {
    forall u: Tid | u != t ensures Starter(PcOf(s, u)) != Some(r) {
      assert Starter(PcOf(s, u)) == Some(r) ==> SameStarter(PcOf(s, t), PcOf(s, u));
    }
  }
}
