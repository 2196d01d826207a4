/** Every step keeps the ownership invariant, and no thread dereferences a freed recording. */
module ProtocolSafety {
  import opened Common
  import opened RecordingTable
  import opened RecordingProtocol
  import opened ProtocolOwnership

  /** Every recording a thread's next step dereferences is alive. */
  lemma ThreadTouchesLive(s: State, t: Tid)
    requires Inv(s)
    ensures TouchedBy(s, PcOf(s, t)) <= s.table.recs.Keys
  {
    HashKeys(s);
    var pc := PcOf(s, t);
    if Pin(pc).Some? { PinnedIsLive(s, t, Pin(pc).value); }
    if Own(pc).Some? { OwnedIsIdle(s, t, Own(pc).value); }
  }

  /** The accounts, the pins and the owners are as they were; only `t` stands elsewhere. */
  ghost predicate QuietMove(s: State, s': State, t: Tid) {
    && SameTable(s, s') && t in s'.threads && s'.threads == s.threads[t := s'.threads[t]]
    && var pc := s'.threads[t];
       Pin(pc) == Pin(PcOf(s, t)) && Own(pc) == Own(PcOf(s, t)) && !pc.Tearing? && !PcOf(s, t).Tearing?
       && (Own(pc).Some? ==> OwnPhase(pc) == OwnPhase(PcOf(s, t)))
  }

  lemma PrepareMoves(s: State, t: Tid, pc: PC, c: Choice)
    requires PcOf(s, t) == pc && TouchedBy(s, pc) <= s.table.recs.Keys && (pc.Binding? || pc.Preparing? || pc.Stopped?)
    ensures QuietMove(s, StepStart(s, t, pc, c), t)
  {
  }

  lemma InviteMoves(s: State, t: Tid, pc: PC, c: Choice)
    requires PcOf(s, t) == pc && TouchedBy(s, pc) <= s.table.recs.Keys && (pc.Inviting?)
    ensures QuietMove(s, StepStart(s, t, pc, c), t)
  {
  }

  lemma AttachMoves(s: State, t: Tid, pc: PC, c: Choice)
    requires PcOf(s, t) == pc && TouchedBy(s, pc) <= s.table.recs.Keys && (pc.Attaching?)
    ensures QuietMove(s, StepStart(s, t, pc, c), t)
  {
  }

  lemma WireMoves(s: State, t: Tid, pc: PC, c: Choice)
    requires PcOf(s, t) == pc && TouchedBy(s, pc) <= s.table.recs.Keys && (pc.Wiring?)
    ensures QuietMove(s, StepStart(s, t, pc, c), t)
  {
  }

  lemma GateMoves(s: State, t: Tid, pc: PC, c: Choice)
    requires PcOf(s, t) == pc && TouchedBy(s, pc) <= s.table.recs.Keys && (pc.Gating? || pc.Ungating?)
    ensures QuietMove(s, StepDirection(s, t, pc, c), t)
  {
  }

  lemma CheckMoves(s: State, t: Tid, pc: PC, c: Choice)
    requires PcOf(s, t) == pc && TouchedBy(s, pc) <= s.table.recs.Keys && (pc.Checking?)
    ensures QuietMove(s, StepDirection(s, t, pc, c), t)
  {
  }

  lemma ReinviteMoves(s: State, t: Tid, pc: PC, c: Choice)
    requires PcOf(s, t) == pc && TouchedBy(s, pc) <= s.table.recs.Keys && (pc.Reinviting?)
    ensures QuietMove(s, StepDirection(s, t, pc, c), t)
  {
    ReinviteTable(s, t, pc, c);
    ReinviteThread(s, t, pc, c);
  }

  lemma ReinviteTable(s: State, t: Tid, pc: PC, c: Choice)
    requires pc.Reinviting? && pc.r in s.table.recs
    ensures SameTable(s, StepReinvite(s, t, pc, c))
  {
    BlankTable(s, pc.r);
  }

  lemma ReinviteThread(s: State, t: Tid, pc: PC, c: Choice)
    requires pc.Reinviting? && pc.r in s.table.recs
    ensures var threads := StepReinvite(s, t, pc, c).threads;
      threads == s.threads[t := Ungating(pc.r, pc.call)] || threads == s.threads[t := Releasing(pc.r, pc.call)]
  {
  }

  lemma BlankTable(s: State, r: RecId)
    requires r in s.table.recs
    ensures SameTable(s, WithRec(s, r, s.table.recs[r].(leg := Blank)))
  {
  }

  lemma HandlerMoves(s: State, t: Tid, pc: PC, c: Choice)
    requires PcOf(s, t) == pc && TouchedBy(s, pc) <= s.table.recs.Keys && (pc.HandlerScan?)
    ensures QuietMove(s, StepStop(s, t, pc, c), t)
  {
    HandlerScanMoves(s, t, pc.call, pc.start);
    assert StepStop(s, t, pc, c) == StepHandlerScan(s, t, pc.call, pc.start);
  }

  lemma HandlerScanMoves(s: State, t: Tid, call: string, start: Option<RecId>)
    requires PcOf(s, t) == HandlerScan(call, start) && s.table.hash.Values <= s.table.recs.Keys
    ensures QuietMove(s, StepHandlerScan(s, t, call, start), t)
  {
    HandlerDoneMoves(s, t, start);
    UnbindNextMoves(s, t, call, start);
  }

  lemma HandlerDoneMoves(s: State, t: Tid, start: Option<RecId>)
    requires PcOf(s, t).HandlerScan?
    ensures QuietMove(s, HandlerDone(s, t, start), t)
  {
  }

  lemma UnbindNextMoves(s: State, t: Tid, call: string, start: Option<RecId>)
    requires PcOf(s, t) == HandlerScan(call, start)
    ensures QuietMove(s, Go(s, t, HandlerUnbind(call, start)), t)
  {
  }

  lemma UnbindMoves(s: State, t: Tid, pc: PC, c: Choice)
    requires PcOf(s, t) == pc && TouchedBy(s, pc) <= s.table.recs.Keys && (pc.HandlerUnbind? || pc.DrainUnbinding?)
    ensures QuietMove(s, StepStop(s, t, pc, c), t)
  {
  }

  lemma ScanMoves(s: State, t: Tid, pc: PC, c: Choice)
    requires PcOf(s, t) == pc && TouchedBy(s, pc) <= s.table.recs.Keys && (pc.Scanning?)
    ensures QuietMove(s, StepStop(s, t, pc, c), t)
  {
  }

  lemma LegEndMoves(s: State, t: Tid, pc: PC, c: Choice)
    requires PcOf(s, t) == pc && TouchedBy(s, pc) <= s.table.recs.Keys && (pc.LegEnding?)
    ensures QuietMove(s, StepStop(s, t, pc, c), t)
  {
  }

  lemma DrainMoves(s: State, t: Tid, d: Drain)
    requires PcOf(s, t) == Draining(d) && (d.pending == [] || d.pending[0].0 !in s.table.hash)
    ensures QuietMove(s, StepDrain(s, t, d), t)
  {
  }

  lemma QuietKeeps(s: State, s': State, t: Tid)
    requires Inv(s) && QuietMove(s, s', t)
    ensures Inv(s')
  {
    Quiet(s, s', t, s'.threads[t]);
  }

  lemma FinishKeeps(s: State, t: Tid, r: RecId)
    requires Inv(s) && PcOf(s, t) == Finishing(r) && r in s.table.recs
    ensures Inv(StepFinish(s, t, r))
  {
    ReleaseKeeps(s, StepFinish(s, t, r), t, r, Idle, ToStopped(r));
  }

  lemma StartKeeps(s: State, t: Tid, pc: PC, c: Choice)
    requires Inv(s) && PcOf(s, t) == pc && InStart(pc) && TouchedBy(s, pc) <= s.table.recs.Keys
    ensures Inv(StepStart(s, t, pc, c))
  {
    var s' := StepStart(s, t, pc, c);
    match pc
    case Allocated(r) => InsertKeeps(s, t, r);
    case Refused(r) => RefusedKeeps(s, t, r, c);
    case Discarding(r) => DiscardKeeps(s, s', t, r, Dropping(r, s.table.recs[r].uuid));
    case Finishing(r) => FinishKeeps(s, t, r);
    case Dropping(r, call) => ReleaseKeeps(s, s', t, r, HandlerScan(call, Some(r)), ToScan(call, Some(r)));
    case _ => StartQuietKeeps(s, t, pc, c);
  }

  lemma RefusedKeeps(s: State, t: Tid, r: RecId, c: Choice)
    requires Inv(s) && PcOf(s, t) == Refused(r) && r in s.table.recs
    ensures Inv(StepStart(s, t, Refused(r), c))
  {
    assert OwnerOk(s, t);
    FreeKeeps(s, StepStart(s, t, Refused(r), c), t, r, Idle);
  }

  lemma StartQuietKeeps(s: State, t: Tid, pc: PC, c: Choice)
    requires Inv(s) && PcOf(s, t) == pc && TouchedBy(s, pc) <= s.table.recs.Keys
    requires pc.Binding? || pc.Preparing? || pc.Inviting? || pc.Attaching? || pc.Wiring? || pc.Stopped?
    ensures Inv(StepStart(s, t, pc, c))
  {
    if pc.Inviting? { InviteMoves(s, t, pc, c); }
    else if pc.Attaching? { AttachMoves(s, t, pc, c); }
    else if pc.Wiring? { WireMoves(s, t, pc, c); }
    else { PrepareMoves(s, t, pc, c); }
    QuietKeeps(s, StepStart(s, t, pc, c), t);
  }

  lemma DirectionKeeps(s: State, t: Tid, pc: PC, c: Choice)
    requires Inv(s) && PcOf(s, t) == pc && InDirection(pc) && TouchedBy(s, pc) <= s.table.recs.Keys
    ensures Inv(StepDirection(s, t, pc, c))
  {
    if pc.Acquiring? { AcquiringKeeps(s, t, pc); }
    else if pc.Releasing? { ReleaseKeeps(s, StepDirection(s, t, pc, c), t, pc.r, Idle, ToIdle); }
    else { DirectionQuietKeeps(s, t, pc, c); }
  }

  lemma AcquiringKeeps(s: State, t: Tid, pc: PC)
    requires Inv(s) && PcOf(s, t) == pc && pc.Acquiring? && AtKey(s, pc.key) <= s.table.recs.Keys
    ensures Inv(StepAcquire(s, t, pc))
  {
    if pc.key !in s.table.hash { Quiet(s, StepAcquire(s, t, pc), t, Idle); }
    else if pc.resume { AcquireKeeps(s, StepAcquire(s, t, pc), t, pc.key, Checking(s.table.hash[pc.key], pc.call, true)); }
    else { AcquireKeeps(s, StepAcquire(s, t, pc), t, pc.key, Gating(s.table.hash[pc.key], pc.call)); }
  }

  lemma DirectionQuietKeeps(s: State, t: Tid, pc: PC, c: Choice)
    requires Inv(s) && PcOf(s, t) == pc && TouchedBy(s, pc) <= s.table.recs.Keys
    requires pc.Gating? || pc.Checking? || pc.Reinviting? || pc.Ungating?
    ensures Inv(StepDirection(s, t, pc, c))
  {
    if pc.Checking? { CheckMoves(s, t, pc, c); }
    else if pc.Reinviting? { ReinviteMoves(s, t, pc, c); }
    else { GateMoves(s, t, pc, c); }
    QuietKeeps(s, StepDirection(s, t, pc, c), t);
  }

  /** The claim and where its thread goes next, as one move. */
  lemma ClaimsKeeps(s: State, t: Tid, key: string, next: After)
    requires Inv(s) && Pin(PcOf(s, t)) == None && Own(PcOf(s, t)) == None && key in s.table.hash
    requires s.table.hash[key] in s.table.recs
    requires !next.ToBind?
    ensures var owned := ClaimHold(s.table, key).owned;
      Inv(Go(Claims(s, key), t, if owned then Tearing(s.table.hash[key], DoDetach, next) else Then(next)))
  {
    var pc := if ClaimHold(s.table, key).owned then Tearing(s.table.hash[key], DoDetach, next) else Then(next);
    ClaimKeeps(s, Go(Claims(s, key), t, pc), t, key, next);
  }

  lemma DrainKeeps(s: State, t: Tid, d: Drain)
    requires Inv(s) && PcOf(s, t) == Draining(d)
    requires d.pending != [] ==> AtKey(s, d.pending[0].0) <= s.table.recs.Keys
    ensures Inv(StepDrain(s, t, d))
  {
    if d.pending != [] && d.pending[0].0 in s.table.hash {
      var d' := d.(pending := d.pending[1..]);
      ClaimsKeeps(s, t, d.pending[0].0, if d.unbind then ToDrainUnbind(d', d.pending[0].1) else ToDrain(d'));
    } else {
      DrainMoves(s, t, d);
      QuietKeeps(s, StepDrain(s, t, d), t);
    }
  }

  lemma ClaimingKeeps(s: State, t: Tid, key: string, call: string)
    requires Inv(s) && PcOf(s, t) == Claiming(key, call) && AtKey(s, key) <= s.table.recs.Keys
    ensures Inv(StepClaim(s, t, key, call))
  {
    if key in s.table.hash { ClaimsKeeps(s, t, key, ToScan(call, None)); }
    else { Quiet(s, StepClaim(s, t, key, call), t, Idle); }
  }

  lemma StopKeeps(s: State, t: Tid, pc: PC, c: Choice)
    requires Inv(s) && PcOf(s, t) == pc && !InStart(pc) && !InDirection(pc) && !pc.Tearing? && pc != Idle
    requires TouchedBy(s, pc) <= s.table.recs.Keys
    ensures Inv(StepStop(s, t, pc, c))
  {
    var s' := StepStop(s, t, pc, c);
    match pc
    case Claiming(key, call) => ClaimingKeeps(s, t, key, call);
    case Draining(d) => DrainKeeps(s, t, d);
    case HandlerScan(_, _) => HandlerMoves(s, t, pc, c); QuietKeeps(s, s', t);
    case Scanning(_) => ScanMoves(s, t, pc, c); QuietKeeps(s, s', t);
    case LegEnding(_, _) => LegEndMoves(s, t, pc, c); QuietKeeps(s, s', t);
    case _ => UnbindMoves(s, t, pc, c); QuietKeeps(s, s', t);
  }

  lemma DetachTable(s: State, v: RecId)
    requires v in s.table.recs
    ensures Detaches(s, v).phase == s.phase[v := Detached] && Detaches(s, v).threads == s.threads
    ensures SameTable(s.(phase := Detaches(s, v).phase), Detaches(s, v))
  {
  }

  lemma ByeTable(s: State, v: RecId, located: bool)
    requires v in s.table.recs
    ensures Byes(s, v, located).phase == s.phase[v := Byed] && Byes(s, v, located).threads == s.threads
    ensures SameTable(s.(phase := Byes(s, v, located).phase), Byes(s, v, located))
  {
  }

  lemma TearKeeps(s: State, t: Tid, pc: PC, c: Choice)
    requires Inv(s) && PcOf(s, t) == pc && pc.Tearing? && pc.victim in s.table.recs
    ensures Inv(StepTear(s, t, pc.victim, pc.step, pc.next, c))
  {
    match pc.step
    case DoDetach => DetachKeeps(s, t, pc.victim, pc.next);
    case DoBye => ByeKeeps(s, t, pc.victim, pc.next, c.located);
    case DoFree => FreedKeeps(s, t, pc.victim, pc.next);
  }

  lemma DetachKeeps(s: State, t: Tid, v: RecId, next: After)
    requires Inv(s) && PcOf(s, t) == Tearing(v, DoDetach, next) && v in s.table.recs
    ensures Inv(Go(Detaches(s, v), t, Tearing(v, DoBye, next)))
  {
    DetachTable(s, v);
    GoAdvances(s, Detaches(s, v), t, Tearing(v, DoBye, next));
  }

  lemma GoAdvances(s: State, s1: State, t: Tid, pc: PC)
    requires Inv(s) && t in s.threads && s.threads[t].Tearing? && pc.Tearing? && OwnPhase(pc) in {Detached, Byed}
    requires pc.victim == s.threads[t].victim && pc.next == s.threads[t].next
    requires s1.phase == s.phase[pc.victim := OwnPhase(pc)] && s1.threads == s.threads
    requires SameTable(s.(phase := s1.phase), s1)
    ensures Inv(Go(s1, t, pc))
  {
    AdvanceKeeps(s, Go(s1, t, pc), t, pc);
  }

  lemma ByeKeeps(s: State, t: Tid, v: RecId, next: After, located: bool)
    requires Inv(s) && PcOf(s, t) == Tearing(v, DoBye, next) && v in s.table.recs
    ensures Inv(Go(Byes(s, v, located), t, Tearing(v, DoFree, next)))
  {
    ByeTable(s, v, located);
    GoAdvances(s, Byes(s, v, located), t, Tearing(v, DoFree, next));
  }

  lemma FreedKeeps(s: State, t: Tid, v: RecId, next: After)
    requires Inv(s) && PcOf(s, t) == Tearing(v, DoFree, next) && v in s.table.recs
    ensures Inv(Go(Frees(s, v), t, Then(next)))
  {
    assert OwnerOk(s, t);
    ThenHolds(v, next);
    FreeKeeps(s, Go(Frees(s, v), t, Then(next)), t, v, Then(next));
  }

  lemma StepKeeps(s: State, t: Tid, c: Choice)
    requires Inv(s) && TouchedBy(s, PcOf(s, t)) <= s.table.recs.Keys && PcOf(s, t) != Idle
    ensures Inv(Step(s, t, c))
  {
    var pc := PcOf(s, t);
    if InStart(pc) { StartKeeps(s, t, pc, c); }
    else if InDirection(pc) { DirectionKeeps(s, t, pc, c); }
    else if pc.Tearing? { TearKeeps(s, t, pc, c); }
    else { StopKeeps(s, t, pc, c); }
  }

  // the steps that are not a thread's own next step

  lemma BeginDirectionMoves(s: State, a: Action)
    requires Enabled(s, a) && Touched(s, a) <= s.table.recs.Keys && a.BeginDirection?
    ensures Effect(s, a) == s || QuietMove(s, Effect(s, a), a.t)
  {
  }

  lemma BeginStopMoves(s: State, a: Action)
    requires Enabled(s, a) && Touched(s, a) <= s.table.recs.Keys && a.BeginStop?
    ensures Effect(s, a) == s || QuietMove(s, Effect(s, a), a.t)
  {
  }

  lemma BeginDrainMoves(s: State, a: Action)
    requires Enabled(s, a) && Touched(s, a) <= s.table.recs.Keys && a.BeginDrain?
    ensures Effect(s, a) == s || QuietMove(s, Effect(s, a), a.t)
  {
  }

  lemma BeginLegEndMoves(s: State, a: Action)
    requires Enabled(s, a) && Touched(s, a) <= s.table.recs.Keys && a.BeginLegEnd?
    ensures Effect(s, a) == s || QuietMove(s, Effect(s, a), a.t)
  {
  }

  lemma ClosingMoves(s: State, r: RecId)
    requires r in s.table.recs
    ensures SameTable(s, Closing(s, r)) && Closing(s, r).threads == s.threads
  {
  }

  lemma MediaMoves(s: State, a: Action)
    requires Enabled(s, a) && Touched(s, a) <= s.table.recs.Keys
    requires a.Tick? || a.TickSend? || a.TickDone? || a.CoreClose?
    ensures SameTable(s, Effect(s, a)) && Effect(s, a).threads == s.threads
  {
    ClosingMoves(s, a.r);
  }

  lemma StartBegins(s: State, a: Action)
    requires Inv(s) && Enabled(s, a) && a.BeginStart?
    ensures Inv(Effect(s, a))
  {
    var s' := Effect(s, a);
    AllocKeeps(s, s', a.t, a.r, s'.table.recs[a.r]);
  }

  lemma EffectKeeps(s: State, a: Action)
    requires Inv(s) && Enabled(s, a) && Touched(s, a) <= s.table.recs.Keys
    ensures Inv(Effect(s, a))
  {
    if a.Run? { StepKeeps(s, a.t, a.c); }
    else if a.BeginStart? { StartBegins(s, a); }
    else if a.Tick? || a.TickSend? || a.TickDone? || a.CoreClose? {
      MediaMoves(s, a);
      Unmoved(s, Effect(s, a));
    } else {
      if a.BeginDirection? { BeginDirectionMoves(s, a); }
      else if a.BeginStop? { BeginStopMoves(s, a); }
      else if a.BeginDrain? { BeginDrainMoves(s, a); }
      else { BeginLegEndMoves(s, a); }
      if Effect(s, a) != s { QuietKeeps(s, Effect(s, a), a.t); }
    }
  }
}
