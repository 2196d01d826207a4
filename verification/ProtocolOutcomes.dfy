/** What a start, a replacement and a drain report is true when they report it. */
module ProtocolOutcomes {
  import opened Common
  import opened RecordingTable
  import opened RecordingProtocol
  import opened ProtocolOwnership
  import opened ProtocolMonitor
  import opened ProtocolWatch
  import opened ProtocolRuns
  import opened ProtocolSteps
  import L = Ledger

  // ---- logs only grow, lives only move forward ----

  lemma StepGrows(s: State, t: Tid, c: Choice)
    requires TouchedBy(s, PcOf(s, t)) <= s.table.recs.Keys
    ensures s.log <= Step(s, t, c).log
  {
    if PcOf(s, t) != Idle { StepShaped(s, t, c); }
  }

  lemma EffectGrows(s: State, a: Action)
    requires Touched(s, a) <= s.table.recs.Keys
    ensures s.log <= Effect(s, a).log
  {
    if a.Run? { StepGrows(s, a.t, a.c); }
  }

  lemma ExecSnoc(acts: seq<Action>, a: Action)
    ensures Exec(acts + [a]) == Apply(Exec(acts), a)
  {
    assert (acts + [a])[..|acts|] == acts;
  }

  lemma LogOnlyGrows(s: State, a: Action)
    ensures s.log <= Apply(s, a).log && forall e :: e in s.log ==> e in Apply(s, a).log
  {
    if Enabled(s, a) && Touched(s, a) <= s.table.recs.Keys { EffectGrows(s, a); }
  }

  lemma LogGrows(acts: seq<Action>)
    requires acts != []
    ensures Exec(acts[..|acts| - 1]).log <= Exec(acts).log
  {
    var s, a := Exec(acts[..|acts| - 1]), acts[|acts| - 1];
    if Enabled(s, a) && Touched(s, a) <= s.table.recs.Keys { EffectGrows(s, a); }
  }

  /** What a run has logged stays logged. */
  lemma {:induction false} PrefixLogged(acts: seq<Action>, n: nat)
    requires n <= |acts|
    ensures Exec(acts[..n]).log <= Exec(acts).log
  {
    if n == |acts| { assert acts[..n] == acts; }
    else {
      assert acts[..|acts| - 1][..n] == acts[..n];
      PrefixLogged(acts[..|acts| - 1], n);
      LogGrows(acts);
    }
  }

  lemma {:induction false} PrefixRank(log: seq<Event>, more: seq<Event>, r: RecId)
    requires log <= more && Monitor(more, r).Mon?
    ensures Monitor(log, r).Mon? && Rank(Monitor(log, r).phase) <= Rank(Monitor(more, r).phase)
  {
    if |log| < |more| {
      assert log <= more[..|more| - 1];
      PrefixRank(log, more[..|more| - 1], r);
    } else {
      assert log == more;
    }
  }

  /** No step takes a recording back to an earlier phase. */
  lemma RankGrows(s: State, a: Action, r: RecId)
    requires Good(s) && Enabled(s, a) && Touched(s, a) <= s.table.recs.Keys
    ensures Rank(PhaseOf(s, r)) <= Rank(PhaseOf(Effect(s, a), r))
  {
    ApplyGood(s, a);
    EffectGrows(s, a);
    var s' := Effect(s, a);
    assert Consistent(ViewOf(s, r), Monitor(s.log, r)) && Consistent(ViewOf(s', r), Monitor(s'.log, r));
    PrefixRank(s.log, s'.log, r);
  }

  // ---- start outcomes ----

  /** The recording a start on its way to reporting failure has left behind, and the rank its life reached. */
  ghost function LeftAt(pc: PC): Option<(RecId, nat)> {
    match pc
    case Stopped(r) => Some((r, 6))
    case Dropping(r, _) => Some((r, 3))
    case HandlerScan(_, Some(r)) => Some((r, 3))
    case HandlerUnbind(_, Some(r)) => Some((r, 3))
    case Tearing(_, _, ToScan(_, Some(r))) => Some((r, 3))
    case _ => None
  }

  ghost predicate LeftBehind(s: State, pc: PC) {
    && (LeftAt(pc).Some? ==> Rank(PhaseOf(s, LeftAt(pc).value.0)) >= LeftAt(pc).value.1)
    && (pc.Tearing? && pc.next.ToStopped? ==> pc.victim == pc.next.was)
  }

  ghost predicate LeavesOk(s: State) { forall t: Tid :: LeftBehind(s, PcOf(s, t)) }

  lemma LeftStays(s: State, a: Action, pc: PC)
    requires Good(s) && Enabled(s, a) && Touched(s, a) <= s.table.recs.Keys && LeftBehind(s, pc)
    ensures LeftBehind(Effect(s, a), pc)
  {
    if LeftAt(pc).Some? { RankGrows(s, a, LeftAt(pc).value.0); }
  }

  lemma StartLeaves(s: State, t: Tid, pc: PC, c: Choice)
    requires Inv(s) && LeftBehind(s, pc) && InStart(pc) && TouchedBy(s, pc) <= s.table.recs.Keys && PcOf(s, t) == pc
    ensures LeftBehind(StepStart(s, t, pc, c), PcOf(StepStart(s, t, pc, c), t))
  {
    match pc
    case Allocated(r) => InsertLeaves(s, t, r);
    case Discarding(r) => PinnedIsLive(s, t, r); assert PhaseOk(s, r); DiscardLeaves(s, t, r);
    case Finishing(r) => FinishLeaves(s, t, r);
    case Dropping(r, call) => DropLeaves(s, t, r, call);
    case _ => PlainLeaves(s, t, pc, c);
  }

  lemma FinishLeaves(s: State, t: Tid, r: RecId)
    requires r in s.table.recs
    ensures LeftBehind(StepFinish(s, t, r), PcOf(StepFinish(s, t, r), t))
  {
  }

  lemma DropLeaves(s: State, t: Tid, r: RecId, call: string)
    requires r in s.table.recs && LeftBehind(s, Dropping(r, call))
    ensures var s' := Releases(s, t, r, HandlerScan(call, Some(r)), ToScan(call, Some(r))); LeftBehind(s', PcOf(s', t))
  {
  }

  lemma PlainLeaves(s: State, t: Tid, pc: PC, c: Choice)
    requires pc.Refused? || pc.Binding? || pc.Preparing? || pc.Inviting? || pc.Attaching? || pc.Wiring? || pc.Stopped?
    requires TouchedBy(s, pc) <= s.table.recs.Keys
    ensures var next := PcOf(StepStart(s, t, pc, c), t); LeftAt(next) == None && !next.Tearing?
  {
  }

  lemma DiscardLeaves(s: State, t: Tid, r: RecId)
    requires r in s.table.recs && (Hashed(s.table, r) || Rank(PhaseOf(s, r)) >= 3)
    ensures LeftBehind(StepDiscard(s, t, r), PcOf(StepDiscard(s, t, r), t))
  {
  }

  lemma InsertLeaves(s: State, t: Tid, r: RecId)
    requires r in s.table.recs && AtKey(s, s.table.recs[r].key) <= s.table.recs.Keys
    ensures LeftBehind(StepInsert(s, t, r), PcOf(StepInsert(s, t, r), t))
  {
  }

  lemma DirectionLeaves(s: State, t: Tid, pc: PC, c: Choice)
    requires InDirection(pc) && TouchedBy(s, pc) <= s.table.recs.Keys
    ensures LeftBehind(StepDirection(s, t, pc, c), PcOf(StepDirection(s, t, pc, c), t))
  {
  }

  lemma StopLeaves(s: State, t: Tid, pc: PC, c: Choice)
    requires !InStart(pc) && !InDirection(pc) && !pc.Tearing? && TouchedBy(s, pc) <= s.table.recs.Keys
    requires PcOf(s, t) == pc && LeftBehind(s, pc)
    ensures LeftBehind(StepStop(s, t, pc, c), PcOf(StepStop(s, t, pc, c), t))
  {
  }

  lemma TearLeaves(s: State, t: Tid, pc: PC, c: Choice)
    requires pc.Tearing? && pc.victim in s.table.recs && LeftBehind(s, pc) && PcOf(s, t) == pc
    requires PhaseOf(s, pc.victim) == OwnPhase(pc)
    ensures var s' := StepTear(s, t, pc.victim, pc.step, pc.next, c); LeftBehind(s', PcOf(s', t))
  {
    var s' := StepTear(s, t, pc.victim, pc.step, pc.next, c);
    TearRank(s, t, pc, c);
  }

  lemma TearRank(s: State, t: Tid, pc: PC, c: Choice)
    requires pc.Tearing? && pc.victim in s.table.recs && PhaseOf(s, pc.victim) == OwnPhase(pc)
    ensures var s' := StepTear(s, t, pc.victim, pc.step, pc.next, c);
      && (forall r: RecId :: Rank(PhaseOf(s', r)) >= Rank(PhaseOf(s, r)))
      && (pc.step == DoFree ==> PhaseOf(s', pc.victim) == Freed)
      && PcOf(s', t) == match pc.step
        case DoDetach => Tearing(pc.victim, DoBye, pc.next)
        case DoBye => Tearing(pc.victim, DoFree, pc.next)
        case DoFree => Then(pc.next)
  {
  }

  lemma StepLeaves(s: State, t: Tid, c: Choice)
    requires Good(s) && LeftBehind(s, PcOf(s, t)) && TouchedBy(s, PcOf(s, t)) <= s.table.recs.Keys
    ensures LeftBehind(Step(s, t, c), PcOf(Step(s, t, c), t))
  {
    var pc := PcOf(s, t);
    if InStart(pc) { StartLeaves(s, t, pc, c); }
    else if InDirection(pc) { DirectionLeaves(s, t, pc, c); }
    else if pc.Tearing? { assert OwnerOk(s, t); TearLeaves(s, t, pc, c); }
    else { StopLeaves(s, t, pc, c); }
  }

  /** Only the acting thread moves. */
  lemma OthersStand(s: State, a: Action, u: Tid)
    requires Enabled(s, a) && Touched(s, a) <= s.table.recs.Keys
    requires match a case Tick(_) => true case TickSend(_) => true case TickDone(_) => true case CoreClose(_) => true case _ => a.t != u
    ensures PcOf(Effect(s, a), u) == PcOf(s, u)
  {
    if a.Run? { StepMovesOne(s, a.t, a.c); }
  }

  lemma StepMovesOne(s: State, t: Tid, c: Choice)
    requires TouchedBy(s, PcOf(s, t)) <= s.table.recs.Keys && PcOf(s, t) != Idle
    ensures t in Step(s, t, c).threads && Step(s, t, c).threads == s.threads[t := PcOf(Step(s, t, c), t)]
  {
    StepShaped(s, t, c);
  }

  lemma EffectLeaves(s: State, a: Action)
    requires Good(s) && LeavesOk(s) && Enabled(s, a) && Touched(s, a) <= s.table.recs.Keys
    ensures LeavesOk(Effect(s, a))
  {
    forall u: Tid ensures LeftBehind(Effect(s, a), PcOf(Effect(s, a), u)) {
      assert LeftBehind(s, PcOf(s, u));
      if a.Run? && a.t == u { StepLeaves(s, u, a.c); }
      else if (a.BeginStart? || a.BeginDirection? || a.BeginStop? || a.BeginDrain? || a.BeginLegEnd?) && a.t == u { }
      else { OthersStand(s, a, u); LeftStays(s, a, PcOf(s, u)); }
    }
  }

  lemma {:induction false} RunsLeaveOk(acts: seq<Action>)
    ensures LeavesOk(Exec(acts))
  {
    if acts != [] {
      var s, a := Exec(acts[..|acts| - 1]), acts[|acts| - 1];
      RunsLeaveOk(acts[..|acts| - 1]);
      RunsAreGood(acts[..|acts| - 1]);
      if Enabled(s, a) && Touched(s, a) <= s.table.recs.Keys { EffectLeaves(s, a); }
    }
  }

  /** After the steps of `acts`, action `a` makes thread `t`'s start of `r` return `st`. */
  ghost predicate Returns(acts: seq<Action>, a: Action, t: Tid, r: RecId, st: Status) {
    LastIsOutcome(Exec(acts), Apply(Exec(acts), a), t, r, st)
  }

  /** `r` is out of the hash, and gone or going: freed, doomed to its last pin, or in its owner's hands. */
  ghost predicate GoneOrGoing(s: State, r: RecId) {
    && Rank(PhaseOf(s, r)) >= 3
    && (r in s.table.recs ==>
          !Hashed(s.table, r)
          && ((s.table.recs[r].doomed && s.table.recs[r].useCount > 0) || exists t :: t in s.threads && Own(s.threads[t]) == Some(r)))
  }

  lemma LeftIsGone(s: State, r: RecId)
    requires Inv(s) && Rank(PhaseOf(s, r)) >= 3
    ensures GoneOrGoing(s, r)
  {
    assert PhaseOk(s, r);
    if r in s.table.recs {
      assert Accounts(s.table.recs)[r] == AccountOf(s.table.recs[r]);
      assert L.Placed(LedgerOf(s), r);
      assert L.InHash(LedgerOf(s), r) <==> Hashed(s.table, r);
      assert forall t :: t in Owns(s.threads) ==> Own(s.threads[t]) == Some(Owns(s.threads)[t]);
    }
  }

  /** Which steps report a start's outcome, and which outcome. */
  ghost predicate Reports(s: State, pc: PC, r: RecId, st: Status) {
    match pc
    case Refused(q) => q == r && st == InUse
    case Finishing(q) => q == r && r in s.table.recs && !ReleaseTearsDown(s.table, r)
                         && st == if s.table.recs[r].doomed then Failed else Success
    case Stopped(q) => q == r && st == Failed
    case HandlerScan(_, start) => start == Some(r) && st == Failed
    case HandlerUnbind(_, start) => start == Some(r) && st == Failed
    case _ => false
  }

  ghost predicate LastIsOutcome(s: State, s': State, t: Tid, r: RecId, st: Status) {
    |s'.log| > |s.log| && s'.log[|s'.log| - 1] == Outcome(t, r, st)
  }

  lemma ReportsFrom(s: State, a: Action, t: Tid, r: RecId, st: Status)
    requires Enabled(s, a) && Touched(s, a) <= s.table.recs.Keys && LastIsOutcome(s, Effect(s, a), t, r, st)
    ensures a.Run? && a.t == t && Reports(s, PcOf(s, t), r, st)
  {
    if a.Run? {
      StepShaped(s, a.t, a.c);
      assert Logs(s, a.t, PcOf(s, a.t), a.c, Outcome(t, r, st));
    }
  }

  /** SUCCESS: at its final release the recording was hashed, undoomed, answered and attached, and still is hashed.
    * FALSE: the recording of this start is out of the hash for good, and freed, doomed to its last pin, or in
    * the hands of the thread tearing it down. INUSE: this start's own recording was never inserted, and is freed; and
    * when the start made its check, its key was held by a recording pinned or with a live leg. */
  lemma StartOutcomesAreTruthful(acts: seq<Action>, a: Action, t: Tid, r: RecId, st: Status)
    requires Returns(acts, a, t, r, st)
    ensures Truthful(Exec(acts), Apply(Exec(acts), a), r, st)
    ensures st == InUse ==> exists n: nat :: n < |acts| && KeyWasHeld(acts, n, t, r)
  {
    RunsAreGood(acts);
    RunsLeaveOk(acts);
    ReturnIsTruthful(Exec(acts), a, t, r, st);
    if st == InUse { SomeHeldIt(acts, t, r); }
  }

  lemma ReturnIsTruthful(s: State, a: Action, t: Tid, r: RecId, st: Status)
    requires Good(s) && LeavesOk(s) && LastIsOutcome(s, Apply(s, a), t, r, st)
    ensures Truthful(s, Apply(s, a), r, st) && (st == InUse ==> PcOf(s, t) == Refused(r))
  {
    ReturnReports(s, a, t, r, st);
    OutcomeIsTruthful(s, a, t, r, st);
  }

  lemma ReturnReports(s: State, a: Action, t: Tid, r: RecId, st: Status)
    requires LastIsOutcome(s, Apply(s, a), t, r, st)
    ensures a.Run? && a.t == t && Enabled(s, a) && Touched(s, a) <= s.table.recs.Keys && Reports(s, PcOf(s, t), r, st)
    ensures Apply(s, a) == Effect(s, a)
  {
    if Enabled(s, a) && Touched(s, a) <= s.table.recs.Keys { ReportsFrom(s, a, t, r, st); }
  }

  lemma SomeHeldIt(acts: seq<Action>, t: Tid, r: RecId)
    requires PcOf(Exec(acts), t) == Refused(r)
    ensures exists n: nat :: n < |acts| && KeyWasHeld(acts, n, t, r)
  {
    var n := RefusedWasHeld(acts, t, r);
  }

  lemma OutcomeIsTruthful(s: State, a: Action, t: Tid, r: RecId, st: Status)
    requires Good(s) && LeavesOk(s) && a.Run? && a.t == t && Enabled(s, a) && Touched(s, a) <= s.table.recs.Keys
    requires Reports(s, PcOf(s, t), r, st)
    ensures Truthful(s, Effect(s, a), r, st)
    ensures st == InUse ==> PcOf(s, t) == Refused(r)
  {
    assert LeftBehind(s, PcOf(s, t));
    if PcOf(s, t).Refused? { RefusedReport(s, t, r, a.c); }
    else if PcOf(s, t).Finishing? { FinishReport(s, t, r, a.c); }
    else { LeftReport(s, a, t, r, st); }
  }

  ghost predicate Truthful(s: State, s': State, r: RecId, st: Status) {
    match st
    case Success =>
      && Hashed(s.table, r) && Hashed(s'.table, r) && !s.table.recs[r].doomed && s.table.recs[r].useCount > 0
      && s.table.recs[r].leg != NoContext && s.table.recs[r].media.Wired?
    case Failed => GoneOrGoing(s', r)
    case InUse => r !in s'.table.recs && CountOf(s'.log, Insert(r)) == 0
  }

  /** Before action `n` of the run thread `t` stood at its one check for `r`, and the key was held by a recording that
    * somebody pinned or whose leg had not ended. */
  ghost predicate KeyWasHeld(acts: seq<Action>, n: nat, t: Tid, r: RecId)
    requires n <= |acts|
  {
    var s := Exec(acts[..n]);
    && PcOf(s, t) == Allocated(r) && r in s.table.recs && s.table.recs[r].key in s.table.hash
    && var other := s.table.hash[s.table.recs[r].key];
       other in s.table.recs && other != r && (s.table.recs[other].useCount > 0 || !s.table.recs[other].legGone)
  }

  /** A refused start found its key held at some moment of the run. */
  lemma {:induction false} RefusedWasHeld(acts: seq<Action>, t: Tid, r: RecId) returns (n: nat)
    requires PcOf(Exec(acts), t) == Refused(r)
    ensures n < |acts| && KeyWasHeld(acts, n, t, r)
  {
    var init := acts[..|acts| - 1];
    if PcOf(Exec(init), t) == Refused(r) {
      n := RefusedWasHeld(init, t, r);
      HeldStays(acts, n, t, r);
    } else {
      n := |init|;
      RefusedNow(acts, t, r);
    }
  }

  lemma HeldStays(acts: seq<Action>, n: nat, t: Tid, r: RecId)
    requires n < |acts| && KeyWasHeld(acts[..|acts| - 1], n, t, r)
    ensures KeyWasHeld(acts, n, t, r)
  {
    assert acts[..|acts| - 1][..n] == acts[..n];
  }

  lemma RefusedNow(acts: seq<Action>, t: Tid, r: RecId)
    requires PcOf(Exec(acts), t) == Refused(r) && acts != [] && PcOf(Exec(acts[..|acts| - 1]), t) != Refused(r)
    ensures KeyWasHeld(acts, |acts| - 1, t, r)
  {
    RunsAreGood(acts[..|acts| - 1]);
    RefusedFrom(Exec(acts[..|acts| - 1]), acts[|acts| - 1], t, r);
  }

  /** The one step that refuses. */
  lemma RefusedFrom(s: State, a: Action, t: Tid, r: RecId)
    requires Good(s) && PcOf(Apply(s, a), t) == Refused(r) && PcOf(s, t) != Refused(r)
    ensures PcOf(s, t) == Allocated(r) && r in s.table.recs && s.table.recs[r].key in s.table.hash
    ensures var other := s.table.hash[s.table.recs[r].key];
      other in s.table.recs && other != r && (s.table.recs[other].useCount > 0 || !s.table.recs[other].legGone)
  {
    if Enabled(s, a) && Touched(s, a) <= s.table.recs.Keys {
      if a.Run? && a.t == t {
        StepRefuses(s, t, a.c, r);
        OwnedIsIdle(s, t, r);
        HashKeys(s);
      } else if !((a.BeginStart? || a.BeginDirection? || a.BeginStop? || a.BeginDrain? || a.BeginLegEnd?) && a.t == t) {
        OthersStand(s, a, t);
      }
    }
  }

  lemma StepRefuses(s: State, t: Tid, c: Choice, r: RecId)
    requires TouchedBy(s, PcOf(s, t)) <= s.table.recs.Keys && PcOf(s, t) != Idle
    requires PcOf(Step(s, t, c), t) == Refused(r)
    ensures PcOf(s, t) == Allocated(r) && Busy(s.table, s.table.recs[r].key)
  {
    var pc := PcOf(s, t);
    if InStart(pc) { StartRefuses(s, t, pc, c, r); }
    else if InDirection(pc) { DirectionRefusesNone(s, t, pc, c); }
    else if !pc.Tearing? { StopRefusesNone(s, t, pc, c); }
  }

  lemma StartRefuses(s: State, t: Tid, pc: PC, c: Choice, r: RecId)
    requires InStart(pc) && TouchedBy(s, pc) <= s.table.recs.Keys && PcOf(StepStart(s, t, pc, c), t) == Refused(r)
    ensures pc == Allocated(r) && Busy(s.table, s.table.recs[r].key)
  {
  }

  lemma DirectionRefusesNone(s: State, t: Tid, pc: PC, c: Choice)
    requires InDirection(pc) && TouchedBy(s, pc) <= s.table.recs.Keys
    ensures !PcOf(StepDirection(s, t, pc, c), t).Refused?
  {
  }

  lemma StopRefusesNone(s: State, t: Tid, pc: PC, c: Choice)
    requires !InStart(pc) && !InDirection(pc) && !pc.Tearing? && pc != Idle && TouchedBy(s, pc) <= s.table.recs.Keys
    requires PcOf(s, t) == pc
    ensures !PcOf(StepStop(s, t, pc, c), t).Refused?
  {
  }

  lemma LeftReport(s: State, a: Action, t: Tid, r: RecId, st: Status)
    requires Good(s) && Enabled(s, a) && Touched(s, a) <= s.table.recs.Keys && LeftBehind(s, PcOf(s, t))
    requires Reports(s, PcOf(s, t), r, st) && !PcOf(s, t).Refused? && !PcOf(s, t).Finishing?
    ensures st == Failed && GoneOrGoing(Effect(s, a), r)
  {
    ReportedWasLeft(s, PcOf(s, t), r, st);
    ApplyGood(s, a);
    RankGrows(s, a, r);
    LeftIsGone(Effect(s, a), r);
  }

  lemma ReportedWasLeft(s: State, pc: PC, r: RecId, st: Status)
    requires LeftBehind(s, pc) && Reports(s, pc, r, st) && !pc.Refused? && !pc.Finishing?
    ensures st == Failed && Rank(PhaseOf(s, r)) >= 3
  {
  }

  lemma FinishReport(s: State, t: Tid, r: RecId, c: Choice)
    requires Good(s) && PcOf(s, t) == Finishing(r) && r in s.table.recs && !ReleaseTearsDown(s.table, r)
    ensures var rec := s.table.recs[r];
      if rec.doomed then GoneOrGoing(StepFinish(s, t, r), r)
      else Hashed(s.table, r) && Hashed(StepFinish(s, t, r).table, r) && rec.useCount > 0
           && rec.leg != NoContext && rec.media.Wired?
  {
    PinnedIsLive(s, t, r);
    assert StarterOk(s, t) && PhaseOk(s, r);
    if s.table.recs[r].doomed {
      ReleaseKeeps(s, StepFinish(s, t, r), t, r, Idle, ToStopped(r));
      LeftIsGone(StepFinish(s, t, r), r);
    }
  }

  lemma RefusedReport(s: State, t: Tid, r: RecId, c: Choice)
    requires Good(s) && PcOf(s, t) == Refused(r) && r in s.table.recs
    ensures var s' := StepStart(s, t, Refused(r), c); r !in s'.table.recs && CountOf(s'.log, Insert(r)) == 0
  {
    NeverInserted(s, t, r);
    assert StepStart(s, t, Refused(r), c).log == s.log + [Free(r)] + [Outcome(t, r, InUse)];
    CountElse(s.log, Free(r), Insert(r));
    CountElse(s.log + [Free(r)], Outcome(t, r, InUse), Insert(r));
  }

  lemma NeverInserted(s: State, t: Tid, r: RecId)
    requires Good(s) && PcOf(s, t) == Refused(r) && r in s.table.recs
    ensures CountOf(s.log, Insert(r)) == 0
  {
    assert OwnerOk(s, t) && Consistent(ViewOf(s, r), Monitor(s.log, r));
    PrivateNotInserted(s.log, r);
  }

  lemma PrivateNotInserted(log: seq<Event>, r: RecId)
    requires Monitor(log, r).Mon? && Monitor(log, r).phase == Private
    ensures CountOf(log, Insert(r)) == 0
  {
    AcceptedCounts(log, r);
  }

  lemma CountElse(log: seq<Event>, e: Event, f: Event)
    requires e != f
    ensures CountOf(log + [e], f) == CountOf(log, f)
  {
    assert (log + [e])[..|log|] == log;
  }

  /** INUSE is reported exactly when, at its one check, the key held a recording pinned or with a live leg;
    * otherwise the start's recording takes the key and the one there, if any, is its to tear down. */
  lemma InsertOrRefuse(acts: seq<Action>, t: Tid, c: Choice, r: RecId)
    requires PcOf(Exec(acts), t) == Allocated(r)
    ensures var s := Exec(acts); var s' := Apply(s, Run(t, c));
      r in s.table.recs && NoDangling(s.table)
      && var key := s.table.recs[r].key;
      if key in s.table.hash && (s.table.recs[s.table.hash[key]].useCount > 0 || !s.table.recs[s.table.hash[key]].legGone)
      then PcOf(s', t) == Refused(r) && s'.table == s.table
      else s'.table.hash == s.table.hash[key := r] && s'.table.recs[r].useCount == 1
           && PcOf(s', t) == if key in s.table.hash then Tearing(s.table.hash[key], DoDetach, ToBind(r)) else Binding(r)
  {
    RunsAreGood(acts);
    var s := Exec(acts);
    OwnedIsIdle(s, t, r);
    HashKeys(s);
    TouchesLive(s, Run(t, c));
  }

  /** A recording that some leg-end of the run marked and that is still hashed stays so marked; once nobody pins it,
    * the next start that reaches its insert under its key takes its place and has it to tear down. */
  lemma DeadRecordingIsReplaced(acts: seq<Action>, t: Tid, c: Choice, r: RecId, dead: RecId, leg: string)
    requires Mark(dead, leg) in Exec(acts).log && Hashed(Exec(acts).table, dead) && PinnedByNone(Exec(acts), dead)
    requires PcOf(Exec(acts), t) == Allocated(r) && r in Exec(acts).table.recs
    requires Exec(acts).table.recs[r].key == Exec(acts).table.recs[dead].key
    ensures var s' := Apply(Exec(acts), Run(t, c));
      Hashed(s'.table, r) && !Hashed(s'.table, dead) && PcOf(s', t) == Tearing(dead, DoDetach, ToBind(r))
  {
    var s := Exec(acts);
    RunsAreGood(acts);
    assert Consistent(ViewOf(s, dead), Monitor(s.log, dead));
    MarkIsKept(s.log, dead, leg);
    assert Accounts(s.table.recs)[dead] == AccountOf(s.table.recs[dead]);
    assert L.Pinners(Pins(s.threads), dead) == {};
    InsertOrRefuse(acts, t, c, r);
    HashKeys(s);
    OwnedIsIdle(s, t, r);
  }

  lemma MarkIsKept(log: seq<Event>, r: RecId, leg: string)
    requires Monitor(log, r).Mon? && Mark(r, leg) in log
    ensures Monitor(log, r).marked
  {
    var i :| 0 <= i < |log| && log[i] == Mark(r, leg);
    MarkedAt(log, r, i);
    if i + 1 < |log| { MarkedStays(log, r, i + 1, i + 1); } else { assert log[..i + 1] == log; }
  }

  ghost predicate PinnedByNone(s: State, r: RecId) {
    forall t :: t in s.threads ==> Pin(s.threads[t]) != Some(r)
  }
}
