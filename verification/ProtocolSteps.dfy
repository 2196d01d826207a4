/** What one step of a thread may log, and that it moves its own thread only. */
module ProtocolSteps {
  import opened Common
  import opened RecordingTable
  import opened RecordingProtocol

  /** The events a step of thread `t` at `pc` may log. */
  ghost predicate Logs(s: State, t: Tid, pc: PC, c: Choice, e: Event) {
    match pc
    case Allocated(r) => e == Insert(r) || e.Unhash?
    case Refused(r) => e == Free(r) || e == Outcome(t, r, InUse)
    case Inviting(r) => c.yes && e == Answer(r, c.leg)
    case Attaching(r) => e == Attach(r)
    case Finishing(r) =>
      r in s.table.recs && !ReleaseTearsDown(s.table, r)
      && e == Outcome(t, r, if s.table.recs[r].doomed then Failed else Success)
    case Stopped(r) => e == Outcome(t, r, Failed)
    case Discarding(r) => e == Unhash(r)
    case Gating(r, _) => e == Gate(t, r)
    case Reinviting(r, _, _) => e == Reinvited(t, r)
    case Ungating(r, _) => e == Ungate(t, r)
    case Claiming(_, _) => e.Unhash?
    case HandlerScan(_, start) => start.Some? && e == Outcome(t, start.value, Failed)
    case HandlerUnbind(_, start) => start.Some? && e == Outcome(t, start.value, Failed)
    case Draining(_) => e.Unhash? || e == Drained(t)
    case LegEnding(_, _) => e.Mark?
    case Tearing(v, _, _) => e == Detach(v) || e == Bye(v) || e == Free(v)
    case _ => false
  }

  ghost predicate Shaped(s: State, s': State, t: Tid, pc: PC, c: Choice) {
    && t in s'.threads && s'.threads == s.threads[t := s'.threads[t]]
    && s.log <= s'.log && |s'.log| <= |s.log| + (if InDirection(pc) then 1 else 2)
    && (forall i :: |s.log| <= i < |s'.log| ==> Logs(s, t, pc, c, s'.log[i]))
    && (s'.legs == s.legs || (pc.Inviting? && c.yes))
  }

  lemma InsertShaped(s: State, t: Tid, r: RecId, c: Choice)
    requires r in s.table.recs && AtKey(s, s.table.recs[r].key) <= s.table.recs.Keys
    ensures Shaped(s, StepInsert(s, t, r), t, Allocated(r), c)
  {
  }

  lemma FinishShaped(s: State, t: Tid, r: RecId, c: Choice)
    requires r in s.table.recs
    ensures Shaped(s, StepFinish(s, t, r), t, Finishing(r), c)
  {
  }

  lemma DiscardShaped(s: State, t: Tid, r: RecId, c: Choice)
    requires r in s.table.recs
    ensures Shaped(s, StepDiscard(s, t, r), t, Discarding(r), c)
  {
  }

  lemma InviteShaped(s: State, t: Tid, r: RecId, c: Choice)
    requires r in s.table.recs
    ensures Shaped(s, StepInvite(s, t, r, c), t, Inviting(r), c)
  {
  }

  lemma AttachShaped(s: State, t: Tid, r: RecId, c: Choice)
    requires r in s.table.recs
    ensures Shaped(s, StepAttach(s, t, r, c), t, Attaching(r), c)
  {
  }

  lemma WireShaped(s: State, t: Tid, r: RecId, c: Choice)
    requires r in s.table.recs
    ensures Shaped(s, StepWire(s, t, r), t, Wiring(r), c)
  {
  }

  lemma ReleaseShaped(s: State, t: Tid, r: RecId, kept: PC, next: After, pc: PC, c: Choice)
    requires r in s.table.recs
    ensures Shaped(s, Releases(s, t, r, kept, next), t, pc, c)
  {
  }

  lemma RefusedShaped(s: State, t: Tid, r: RecId, c: Choice)
    ensures Shaped(s, Emit(Go(Frees(s, r), t, Idle), Outcome(t, r, InUse)), t, Refused(r), c)
  {
  }

  /** A step that logs nothing and only moves its thread. */
  lemma QuietShaped(s: State, s': State, t: Tid, pc: PC, next: PC, c: Choice)
    requires s'.threads == s.threads[t := next] && s'.log == s.log && s'.legs == s.legs
    ensures Shaped(s, s', t, pc, c)
  {
  }

  lemma StartShaped(s: State, t: Tid, pc: PC, c: Choice)
    requires InStart(pc) && TouchedBy(s, pc) <= s.table.recs.Keys
    ensures Shaped(s, StepStart(s, t, pc, c), t, pc, c)
  {
    match pc
    case Allocated(r) => InsertShaped(s, t, r, c);
    case Refused(r) => RefusedShaped(s, t, r, c);
    case Binding(r) => QuietShaped(s, StepStart(s, t, pc, c), t, pc, Preparing(r), c);
    case Preparing(r) => QuietShaped(s, StepStart(s, t, pc, c), t, pc, if c.yes then Inviting(r) else Discarding(r), c);
    case Inviting(r) => InviteShaped(s, t, r, c);
    case Attaching(r) => AttachShaped(s, t, r, c);
    case Wiring(r) => WireShaped(s, t, r, c);
    case Finishing(r) => FinishShaped(s, t, r, c);
    case Stopped(r) =>
    case Discarding(r) => DiscardShaped(s, t, r, c);
    case Dropping(r, call) => ReleaseShaped(s, t, r, HandlerScan(call, Some(r)), ToScan(call, Some(r)), pc, c);
  }

  lemma AcquireShaped(s: State, t: Tid, pc: PC, c: Choice)
    requires pc.Acquiring? && AtKey(s, pc.key) <= s.table.recs.Keys
    ensures Shaped(s, StepAcquire(s, t, pc), t, pc, c)
  {
  }

  lemma ReinviteShaped(s: State, t: Tid, pc: PC, c: Choice)
    requires pc.Reinviting? && pc.r in s.table.recs
    ensures Shaped(s, StepReinvite(s, t, pc, c), t, pc, c)
  {
  }

  lemma PauseShaped(s: State, t: Tid, pc: PC, paused: bool, e: Event, next: PC, c: Choice)
    requires (pc.Gating? || pc.Ungating?) && pc.r in s.table.recs && e == if pc.Gating? then Gate(t, pc.r) else Ungate(t, pc.r)
    ensures Shaped(s, Go(SetPaused(s, pc.r, paused, e), t, next), t, pc, c)
  {
  }

  lemma DirectionShaped(s: State, t: Tid, pc: PC, c: Choice)
    requires InDirection(pc) && TouchedBy(s, pc) <= s.table.recs.Keys
    ensures Shaped(s, StepDirection(s, t, pc, c), t, pc, c)
  {
    match pc
    case Acquiring(_, _, _) => AcquireShaped(s, t, pc, c);
    case Gating(r, call) => PauseShaped(s, t, pc, true, Gate(t, r), Checking(r, call, false), c);
    case Checking(r, call, resume) =>
      QuietShaped(s, StepDirection(s, t, pc, c), t, pc,
                  if s.table.recs[r].leg.OnLeg? then Reinviting(r, call, resume) else Releasing(r, call), c);
    case Reinviting(_, _, _) => ReinviteShaped(s, t, pc, c);
    case Ungating(r, call) => PauseShaped(s, t, pc, false, Ungate(t, r), Releasing(r, call), c);
    case Releasing(r, _) => ReleaseShaped(s, t, r, Idle, ToIdle, pc, c);
  }

  lemma ClaimShaped(s: State, t: Tid, key: string, call: string, c: Choice)
    requires AtKey(s, key) <= s.table.recs.Keys
    ensures Shaped(s, StepClaim(s, t, key, call), t, Claiming(key, call), c)
  {
  }

  lemma HandlerScanShaped(s: State, t: Tid, call: string, start: Option<RecId>, c: Choice)
    requires s.table.hash.Values <= s.table.recs.Keys
    ensures Shaped(s, StepHandlerScan(s, t, call, start), t, HandlerScan(call, start), c)
  {
  }

  lemma DrainShaped(s: State, t: Tid, d: Drain, c: Choice)
    requires d.pending != [] ==> AtKey(s, d.pending[0].0) <= s.table.recs.Keys
    ensures Shaped(s, StepDrain(s, t, d), t, Draining(d), c)
  {
  }

  lemma ScanShaped(s: State, t: Tid, d: Drain, c: Choice)
    requires s.table.hash.Values <= s.table.recs.Keys
    ensures Shaped(s, StepScan(s, t, d, c.batch), t, Scanning(d), c)
  {
  }

  lemma LegEndShaped(s: State, t: Tid, key: string, leg: string, c: Choice)
    requires AtKey(s, key) <= s.table.recs.Keys
    ensures Shaped(s, StepLegEnd(s, t, key, leg), t, LegEnding(key, leg), c)
  {
  }

  lemma StopShaped(s: State, t: Tid, pc: PC, c: Choice)
    requires !InStart(pc) && !InDirection(pc) && !pc.Tearing? && pc != Idle && TouchedBy(s, pc) <= s.table.recs.Keys
    ensures Shaped(s, StepStop(s, t, pc, c), t, pc, c)
  {
    match pc
    case Claiming(key, call) => ClaimShaped(s, t, key, call, c);
    case HandlerScan(call, start) => HandlerScanShaped(s, t, call, start, c);
    case HandlerUnbind(call, start) =>
    case Scanning(d) => ScanShaped(s, t, d, c);
    case Draining(d) => DrainShaped(s, t, d, c);
    case DrainUnbinding(d, call) => QuietShaped(s, StepStop(s, t, pc, c), t, pc, Draining(d), c);
    case LegEnding(key, leg) => LegEndShaped(s, t, key, leg, c);
  }

  lemma TearShaped(s: State, t: Tid, pc: PC, c: Choice)
    requires pc.Tearing? && pc.victim in s.table.recs
    ensures Shaped(s, StepTear(s, t, pc.victim, pc.step, pc.next, c), t, pc, c)
  {
    match pc.step
    case DoDetach => DetachLogs(s, pc.victim); OneLogged(s, Detaches(s, pc.victim), t, pc, Tearing(pc.victim, DoBye, pc.next), c);
    case DoBye => OneLogged(s, Byes(s, pc.victim, c.located), t, pc, Tearing(pc.victim, DoFree, pc.next), c);
    case DoFree => OneLogged(s, Frees(s, pc.victim), t, pc, Then(pc.next), c);
  }

  lemma DetachLogs(s: State, v: RecId)
    requires v in s.table.recs
    ensures var s' := Detaches(s, v); s'.threads == s.threads && s'.legs == s.legs && s'.log == s.log + [Detach(v)]
  {
  }

  lemma OneLogged(s: State, s1: State, t: Tid, pc: PC, next: PC, c: Choice)
    requires s1.threads == s.threads && s1.legs == s.legs && |s1.log| == |s.log| + 1 && s.log <= s1.log
    requires Logs(s, t, pc, c, s1.log[|s.log|])
    ensures Shaped(s, Go(s1, t, next), t, pc, c)
  {
  }

  lemma StepShaped(s: State, t: Tid, c: Choice)
    requires TouchedBy(s, PcOf(s, t)) <= s.table.recs.Keys && PcOf(s, t) != Idle
    ensures Shaped(s, Step(s, t, c), t, PcOf(s, t), c)
  {
    var pc := PcOf(s, t);
    if InStart(pc) { StartShaped(s, t, pc, c); }
    else if InDirection(pc) { DirectionShaped(s, t, pc, c); }
    else if pc.Tearing? { TearShaped(s, t, pc, c); }
    else { StopShaped(s, t, pc, c); }
  }
}
